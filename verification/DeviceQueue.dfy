/** The device's table of scans and its synchronisation rounds. */
module DeviceQueues {
  import opened Wrappers

  datatype Stored = Stored(scan: string, token: string, checkedInAt: int, synced: bool, retries: nat,
                           error: Option<string>)

  predicate DistinctScans(records: seq<Stored>) {
    forall i, j | 0 <= i < j < |records| :: records[i].scan != records[j].scan
  }

  predicate InOrder(records: seq<Stored>) {
    forall i, j | 0 <= i < j < |records| :: records[i].checkedInAt <= records[j].checkedInAt
  }

  function PendingOf(records: seq<Stored>): seq<Stored> {
    if records == [] then []
    else (if records[0].synced then [] else [records[0]]) + PendingOf(records[1..])
  }

  /** The rows that SELECT .. WHERE status = 'pending_sync' ORDER BY checked_in_at LIMIT k returns. */
  function Head(records: seq<Stored>, k: nat): seq<Stored> {
    var pending := PendingOf(records);
    if |pending| <= k then pending else pending[..k]
  }

  function ScansOf(records: seq<Stored>): set<string> {
    set i | 0 <= i < |records| :: records[i].scan
  }

  function Settle(x: Stored): Stored {
    x.(synced := true, retries := x.retries + 1, error := None)
  }

  /** UPDATE checkins SET status = 'synced' for the scans of s. */
  function MarkSynced(records: seq<Stored>, s: set<string>): (marked: seq<Stored>)
    ensures |marked| == |records|
    ensures forall i | 0 <= i < |records| ::
              marked[i] == if records[i].scan in s then Settle(records[i]) else records[i]
  {
    seq(|records|, i requires 0 <= i < |records| => if records[i].scan in s then Settle(records[i]) else records[i])
  }

  // ---- a round ----

  lemma {:induction false} PendingScans(records: seq<Stored>, i: nat)
    requires i < |PendingOf(records)|
    ensures PendingOf(records)[i] in records && !PendingOf(records)[i].synced
    decreases records
  {
    if records != [] {
      var k := if records[0].synced then 0 else 1;
      if i >= k { PendingScans(records[1..], i - k); }
    }
  }

  /** With distinct scan ids, marking the first k pending records takes exactly them off the queue. */
  lemma {:induction false} MarkingTheHead(records: seq<Stored>, k: nat, s: set<string>)
    requires DistinctScans(records) && k <= |PendingOf(records)|
    requires forall i | 0 <= i < |PendingOf(records)| :: PendingOf(records)[i].scan in s <==> i < k
    ensures PendingOf(MarkSynced(records, s)) == PendingOf(records)[k..]
    decreases records
  {
    if records != [] {
      var rest, pending := records[1..], PendingOf(records);
      assert MarkSynced(records, s)[1..] == MarkSynced(rest, s);
      if records[0].synced {
        assert pending == PendingOf(rest);
        MarkingTheHead(rest, k, s);
      } else {
        assert pending == [records[0]] + PendingOf(rest);
        assert forall i | 0 <= i < |PendingOf(rest)| :: PendingOf(rest)[i] == pending[i + 1];
        assert pending[0].scan in s <==> 0 < k;
        MarkingTheHead(rest, if k == 0 then 0 else k - 1, s);
      }
    }
  }

  lemma {:induction false} PendingAreDistinct(records: seq<Stored>)
    requires DistinctScans(records)
    ensures DistinctScans(PendingOf(records))
    decreases records
  {
    if records != [] {
      PendingAreDistinct(records[1..]);
      var rest := PendingOf(records[1..]);
      forall j | 0 <= j < |rest| ensures rest[j].scan != records[0].scan {
        PendingScans(records[1..], j);
        var n :| 0 <= n < |records[1..]| && records[1..][n] == rest[j];
        assert records[n + 1] == rest[j];
      }
    }
  }

  /** A round in which the server settles the whole head batch. */
  function SettledRound(records: seq<Stored>, k: nat): seq<Stored> {
    MarkSynced(records, ScansOf(Head(records, k)))
  }

  lemma SettledRoundShrinks(records: seq<Stored>, k: nat)
    requires DistinctScans(records)
    ensures DistinctScans(SettledRound(records, k))
    ensures PendingOf(SettledRound(records, k)) == PendingOf(records)[|Head(records, k)|..]
    ensures |Head(records, k)| == if |PendingOf(records)| <= k then |PendingOf(records)| else k
  {
    var pending, head := PendingOf(records), Head(records, k);
    PendingAreDistinct(records);
    forall i | 0 <= i < |pending| ensures pending[i].scan in ScansOf(head) <==> i < |head| {
      if i < |head| { assert pending[i] == head[i]; }
    }
    MarkingTheHead(records, |head|, ScansOf(head));
  }

  function Rounds(records: seq<Stored>, k: nat, n: nat): seq<Stored>
    decreases n
  {
    if n == 0 then records else Rounds(SettledRound(records, k), k, n - 1)
  }

  lemma OneRoundLess(n: nat, k: nat)
    requires n > 0
    ensures n * k == (n - 1) * k + k && (n - 1) * k >= 0
  {
  }

  /** n all-settling rounds of k leave the queue without its first n * k records. */
  lemma {:induction false} RoundsDrain(records: seq<Stored>, k: nat, n: nat)
    requires DistinctScans(records)
    ensures |PendingOf(Rounds(records, k, n))|
         == if n * k <= |PendingOf(records)| then |PendingOf(records)| - n * k else 0
    decreases n
  {
    hide PendingOf, SettledRound, DistinctScans, Head;
    if n > 0 {
      SettledRoundShrinks(records, k);
      RoundsDrain(SettledRound(records, k), k, n - 1);
      OneRoundLess(n, k);
    }
  }

  /** An all-settling queue of p records is empty after ceil(p / 25) syncs of 25, and not before. */
  lemma QueueDrains(records: seq<Stored>, n: nat)
    requires DistinctScans(records)
    ensures PendingOf(Rounds(records, 25, n)) == [] <==> n >= (|PendingOf(records)| + 24) / 25
  {
    RoundsDrain(records, 25, n);
  }

  function Inserted(records: seq<Stored>, i: nat, x: Stored): (more: seq<Stored>)
    requires i <= |records|
    ensures |more| == |records| + 1
    ensures forall n | 0 <= n < |more| :: more[n] == if n < i then records[n] else if n == i then x else records[n - 1]
  {
    records[..i] + [x] + records[i..]
  }

  lemma InsertedDistinct(records: seq<Stored>, i: nat, x: Stored)
    requires DistinctScans(records) && i <= |records|
    requires forall n | 0 <= n < |records| :: records[n].scan != x.scan
    ensures DistinctScans(Inserted(records, i, x))
  {
    var more := Inserted(records, i, x);
    forall m, n | 0 <= m < n < |more|
      ensures more[m].scan != more[n].scan
    {
      assert more[m] == if m < i then records[m] else if m == i then x else records[m - 1];
      assert more[n] == if n < i then records[n] else if n == i then x else records[n - 1];
    }
  }

  lemma InsertedInOrder(records: seq<Stored>, i: nat, x: Stored)
    requires InOrder(records) && i <= |records|
    requires i > 0 ==> records[i - 1].checkedInAt <= x.checkedInAt
    requires forall n | i <= n < |records| :: records[n].checkedInAt > x.checkedInAt
    ensures InOrder(Inserted(records, i, x))
  {
    var more := Inserted(records, i, x);
    forall m, n | 0 <= m < n < |more|
      ensures more[m].checkedInAt <= more[n].checkedInAt
    {
      assert more[m] == if m < i then records[m] else if m == i then x else records[m - 1];
      assert more[n] == if n < i then records[n] else if n == i then x else records[n - 1];
    }
  }

  // ---- refused items ----

  /** The server's answer to one item: it settles the record, or refuses it with an error code. */
  datatype Reply = Settles | Refuses(code: Option<string>)

  function Retain(x: Stored, code: Option<string>): Stored {
    x.(synced := false, retries := x.retries + 1, error := code)
  }

  /** UPDATE checkins SET status = 'pending_sync' for the refused scans, each with its code. */
  function MarkRetained(records: seq<Stored>, codes: map<string, Option<string>>): (marked: seq<Stored>)
    ensures |marked| == |records|
    ensures forall i | 0 <= i < |records| ::
              marked[i] == if records[i].scan in codes then Retain(records[i], codes[records[i].scan]) else records[i]
  {
    seq(|records|, i requires 0 <= i < |records| =>
      if records[i].scan in codes then Retain(records[i], codes[records[i].scan]) else records[i])
  }

  /** The refused items of a batch. */
  function RefusedCodes(batch: seq<Stored>, replies: seq<Reply>): map<string, Option<string>>
    requires |replies| == |batch|
    decreases batch
  {
    if batch == [] then map[]
    else
      var n := |batch| - 1;
      var before := RefusedCodes(batch[..n], replies[..n]);
      if replies[n].Refuses? then before[batch[n].scan := replies[n].code] else before
  }

  lemma {:induction false} RefusedScans(batch: seq<Stored>, replies: seq<Reply>)
    requires |replies| == |batch| && DistinctScans(batch)
    ensures forall m | 0 <= m < |batch| :: batch[m].scan in RefusedCodes(batch, replies) <==> replies[m].Refuses?
    ensures forall m | 0 <= m < |batch| && replies[m].Refuses? ::
              RefusedCodes(batch, replies)[batch[m].scan] == replies[m].code
    ensures forall x <- RefusedCodes(batch, replies) ::
              exists m :: 0 <= m < |batch| && batch[m].scan == x && replies[m].Refuses?
    decreases batch
  {
    if batch != [] {
      var n := |batch| - 1;
      var most, some := batch[..n], replies[..n];
      RefusedScans(most, some);
      assert forall m | 0 <= m < n :: most[m] == batch[m] && some[m] == replies[m];
      forall x <- RefusedCodes(batch, replies)
        ensures exists m :: 0 <= m < |batch| && batch[m].scan == x && replies[m].Refuses?
      {
        if x in RefusedCodes(most, some) {
          var m :| 0 <= m < |most| && most[m].scan == x && some[m].Refuses?;
          assert batch[m].scan == x && replies[m].Refuses?;
        }
      }
    }
  }

  lemma {:induction false} RetainedStayPending(records: seq<Stored>, codes: map<string, Option<string>>)
    requires forall i | 0 <= i < |records| :: records[i].scan in codes ==> !records[i].synced
    ensures |PendingOf(MarkRetained(records, codes))| == |PendingOf(records)|
    decreases records
  {
    if records != [] {
      assert MarkRetained(records, codes)[1..] == MarkRetained(records[1..], codes);
      RetainedStayPending(records[1..], codes);
    }
  }

  // ---- what a round writes back ----

  lemma RefusedStep(batch: seq<Stored>, replies: seq<Reply>, i: nat)
    requires i < |batch| == |replies| && DistinctScans(batch)
    ensures var before := RefusedCodes(batch[..i], replies[..i]);
            && RefusedCodes(batch[..i + 1], replies[..i + 1])
                 == (if replies[i].Refuses? then before[batch[i].scan := replies[i].code] else before)
            && batch[i].scan !in before
  {
    assert batch[..i + 1][..i] == batch[..i] && replies[..i + 1][..i] == replies[..i];
    RefusedScans(batch[..i], replies[..i]);
  }

  /** The scans whose answers settle them. */
  function SettledScans(batch: seq<Stored>, replies: seq<Reply>): set<string>
    requires |replies| == |batch|
  {
    set m | 0 <= m < |batch| && replies[m].Settles? :: batch[m].scan
  }

  lemma NothingYet(batch: seq<Stored>, replies: seq<Reply>)
    requires |replies| == |batch|
    ensures SettledScans(batch[..0], replies[..0]) == {}
  {
  }

  /** One more answer adds its scan when it settles, and that scan is a new one. */
  lemma SettledStep(batch: seq<Stored>, replies: seq<Reply>, i: nat)
    requires i < |batch| == |replies| && DistinctScans(batch)
    ensures SettledScans(batch[..i + 1], replies[..i + 1])
         == SettledScans(batch[..i], replies[..i]) + if replies[i].Settles? then {batch[i].scan} else {}
    ensures batch[i].scan !in SettledScans(batch[..i], replies[..i])
  {
    var a, b := SettledScans(batch[..i + 1], replies[..i + 1]), SettledScans(batch[..i], replies[..i]);
    forall x | x in b ensures x in a {
      var m :| 0 <= m < |batch[..i]| && replies[..i][m].Settles? && batch[..i][m].scan == x;
      assert replies[..i + 1][m].Settles? && batch[..i + 1][m].scan == x;
    }
    forall x | x in a ensures x in b || (replies[i].Settles? && x == batch[i].scan) {
      var m :| 0 <= m < |batch[..i + 1]| && replies[..i + 1][m].Settles? && batch[..i + 1][m].scan == x;
      if m < i { assert replies[..i][m].Settles? && batch[..i][m].scan == x; }
    }
    if replies[i].Settles? { assert replies[..i + 1][i].Settles? && batch[..i + 1][i].scan == batch[i].scan; }
  }

  /** The settled and the refused scans of a batch. */
  method Classify(batch: seq<Stored>, replies: seq<Reply>) returns (synced: seq<string>, retained: seq<string>)
    requires |replies| == |batch| && DistinctScans(batch)
    ensures forall x :: x in synced <==> x in SettledScans(batch, replies)
    ensures forall x :: x in retained <==> x in RefusedCodes(batch, replies)
    ensures forall m, n | 0 <= m < n < |synced| :: synced[m] != synced[n]
    ensures forall m, n | 0 <= m < n < |retained| :: retained[m] != retained[n]
  {
    hide SettledScans;
    synced, retained := [], [];
    NothingYet(batch, replies);
    for i := 0 to |batch|
      invariant forall x :: x in synced <==> x in SettledScans(batch[..i], replies[..i])
      invariant forall x :: x in retained <==> x in RefusedCodes(batch[..i], replies[..i])
      invariant forall m, n | 0 <= m < n < |synced| :: synced[m] != synced[n]
      invariant forall m, n | 0 <= m < n < |retained| :: retained[m] != retained[n]
    {
      SettledStep(batch, replies, i);
      RefusedStep(batch, replies, i);
      if replies[i].Settles? { synced := synced + [batch[i].scan]; } else { retained := retained + [batch[i].scan]; }
    }
    assert batch[..|batch|] == batch && replies[..|batch|] == replies;
  }

  lemma OneMoreRetained(records: seq<Stored>, done: map<string, Option<string>>, scan: string, code: Option<string>)
    requires scan !in done
    ensures MarkRetained(MarkRetained(records, done), map[scan := code]) == MarkRetained(records, done[scan := code])
  {
  }

  /** The records after the answers to a batch were written back. */
  function AfterRound(records: seq<Stored>, batch: seq<Stored>, replies: seq<Reply>): seq<Stored>
    requires |replies| == |batch|
  {
    MarkRetained(MarkSynced(records, SettledScans(batch, replies)), RefusedCodes(batch, replies))
  }

  lemma SettledOrRefused(batch: seq<Stored>, replies: seq<Reply>, x: string)
    requires |replies| == |batch| && DistinctScans(batch)
    ensures !(x in SettledScans(batch, replies) && x in RefusedCodes(batch, replies))
  {
    RefusedScans(batch, replies);
  }

  lemma HeadIsDistinct(records: seq<Stored>, k: nat)
    requires DistinctScans(records)
    ensures DistinctScans(Head(records, k))
  {
    PendingAreDistinct(records);
  }

  lemma RefusedIsPending(records: seq<Stored>, k: nat, replies: seq<Reply>, i: nat)
    requires DistinctScans(records) && |replies| == |Head(records, k)| && i < |records|
    ensures records[i].scan in RefusedCodes(Head(records, k), replies) ==> !records[i].synced
  {
    var batch := Head(records, k);
    HeadIsDistinct(records, k);
    RefusedScans(batch, replies);
    if records[i].scan in RefusedCodes(batch, replies) {
      var m :| 0 <= m < |batch| && batch[m].scan == records[i].scan;
      PendingScans(records, m);
      var n :| 0 <= n < |records| && records[n] == batch[m];
    }
  }

  ghost predicate AllPending(records: seq<Stored>, s: set<string>) {
    forall x | x in s :: exists r :: r in PendingOf(records) && r.scan == x
  }

  lemma HeadIsPending(records: seq<Stored>, k: nat, replies: seq<Reply>)
    requires |replies| == |Head(records, k)|
    ensures AllPending(records, SettledScans(Head(records, k), replies))
  {
    var head := Head(records, k);
    forall x | x in SettledScans(head, replies) ensures exists r :: r in PendingOf(records) && r.scan == x {
      var m :| 0 <= m < |head| && replies[m].Settles? && head[m].scan == x;
      assert head[m] in PendingOf(records);
    }
  }

  lemma PendingScan(records: seq<Stored>, r: Stored)
    requires r in PendingOf(records)
    ensures r in records && !r.synced
  {
    var i :| 0 <= i < |PendingOf(records)| && PendingOf(records)[i] == r;
    PendingScans(records, i);
  }

  lemma RestPending(records: seq<Stored>, s: set<string>)
    requires records != [] && DistinctScans(records) && AllPending(records, s)
    ensures AllPending(records[1..], s - {records[0].scan})
    ensures records[0].scan in s ==> !records[0].synced
    ensures MarkSynced(records[1..], s) == MarkSynced(records[1..], s - {records[0].scan})
  {
    var rest, x := records[1..], records[0];
    assert forall j | 0 <= j < |rest| :: rest[j] == records[j + 1];
    assert PendingOf(records) == (if x.synced then [] else [x]) + PendingOf(rest);
    forall y | y in s - {x.scan} ensures exists r :: r in PendingOf(rest) && r.scan == y {
      var r :| r in PendingOf(records) && r.scan == y;
      assert r in PendingOf(rest);
    }
    if x.scan in s {
      var r :| r in PendingOf(records) && r.scan == x.scan;
      if r in PendingOf(rest) { PendingScan(rest, r); }
    }
  }

  lemma {:induction false} MarkedLeave(records: seq<Stored>, s: set<string>)
    requires DistinctScans(records) && AllPending(records, s)
    ensures |PendingOf(MarkSynced(records, s))| == |PendingOf(records)| - |s|
    decreases records
  {
    if records == [] {
      assert s == {};
    } else {
      var rest, x := records[1..], records[0];
      RestPending(records, s);
      assert MarkSynced(records, s)[1..] == MarkSynced(rest, s);
      hide AllPending;
      MarkedLeave(rest, s - {x.scan});
    }
  }

  /** A round takes the settled records off the queue and leaves every other pending record on it. */
  lemma RoundShrinks(records: seq<Stored>, k: nat, replies: seq<Reply>)
    requires DistinctScans(records) && |replies| == |Head(records, k)|
    ensures |PendingOf(AfterRound(records, Head(records, k), replies))|
         == |PendingOf(records)| - |SettledScans(Head(records, k), replies)|
  {
    hide PendingOf, Head, SettledScans, RefusedCodes;
    var batch := Head(records, k);
    HeadIsDistinct(records, k);
    HeadIsPending(records, k, replies);
    MarkedLeave(records, SettledScans(batch, replies));
    var marked := MarkSynced(records, SettledScans(batch, replies));
    forall i | 0 <= i < |marked|
      ensures marked[i].scan in RefusedCodes(batch, replies) ==> !marked[i].synced
    {
      SettledOrRefused(batch, replies, records[i].scan);
      RefusedIsPending(records, k, replies, i);
    }
    RetainedStayPending(marked, RefusedCodes(batch, replies));
  }

  lemma HeadInRecords(records: seq<Stored>, k: nat, m: nat)
    requires m < |Head(records, k)|
    ensures exists n :: 0 <= n < |records| && records[n] == Head(records, k)[m]
  {
    PendingScans(records, m);
  }

  /**
   * What a round makes of each record: of the batch, the settled ones leave the queue and the refused
   * ones stay on it with their code, each with one attempt more; every other record is as it was.
   */
  lemma RoundOutcome(records: seq<Stored>, k: nat, replies: seq<Reply>, i: nat)
    requires DistinctScans(records) && |replies| == |Head(records, k)| && i < |records|
    ensures var batch, x := Head(records, k), AfterRound(records, Head(records, k), replies)[i];
            && (forall m | 0 <= m < |batch| && batch[m] == records[i] ::
                  && x.scan == records[i].scan && x.token == records[i].token
                  && x.checkedInAt == records[i].checkedInAt
                  && x.retries == records[i].retries + 1
                  && x.synced == replies[m].Settles?
                  && x.error == if replies[m].Settles? then None else replies[m].code)
            && (records[i] !in batch ==> x == records[i])
  {
    hide PendingOf, Head, RefusedCodes;
    var batch := Head(records, k);
    HeadIsDistinct(records, k);
    RefusedScans(batch, replies);
    SettledOrRefused(batch, replies, records[i].scan);
    forall m | 0 <= m < |batch|
      ensures batch[m].scan == records[i].scan ==> batch[m] == records[i]
    {
      HeadInRecords(records, k, m);
    }
  }

  lemma {:induction false} DistinctCount(scans: seq<string>)
    requires forall m, n | 0 <= m < n < |scans| :: scans[m] != scans[n]
    ensures |set n | 0 <= n < |scans| :: scans[n]| == |scans|
    decreases scans
  {
    if scans != [] {
      var most := scans[..|scans| - 1];
      DistinctCount(most);
      var s := set n | 0 <= n < |most| :: most[n];
      assert (set n | 0 <= n < |scans| :: scans[n]) == s + {scans[|scans| - 1]};
    }
  }

  lemma ScanSet(scans: seq<string>, s: set<string>)
    requires forall x :: x in scans <==> x in s
    ensures (set n | 0 <= n < |scans| :: scans[n]) == s
  {
    forall x | x in s ensures x in set n | 0 <= n < |scans| :: scans[n] { assert x in scans; }
  }

  lemma NothingSettled(records: seq<Stored>, batch: seq<Stored>, reply: Option<seq<Reply>>)
    requires batch == [] && (reply.Some? ==> |reply.value| == 0)
    ensures reply.Some? ==> AfterRound(records, batch, reply.value) == records && SettledScans(batch, reply.value) == {}
  {
  }

  lemma {:induction false} NoneRefused(batch: seq<Stored>, replies: seq<Reply>)
    requires |replies| == |batch| && forall r <- replies :: r.Settles?
    ensures RefusedCodes(batch, replies) == map[]
    decreases batch
  {
    if batch != [] {
      assert replies[|batch| - 1] in replies && forall r <- replies[..|batch| - 1] :: r in replies;
      NoneRefused(batch[..|batch| - 1], replies[..|batch| - 1]);
    }
  }

  /** A round in which every answer settles is the round that QueueDrains counts. */
  lemma AllSettlingRound(records: seq<Stored>, k: nat, replies: seq<Reply>)
    requires |replies| == |Head(records, k)| && forall r <- replies :: r.Settles?
    ensures AfterRound(records, Head(records, k), replies) == SettledRound(records, k)
  {
    var batch := Head(records, k);
    NoneRefused(batch, replies);
    hide Head, RefusedCodes;
    assert SettledScans(batch, replies) == ScansOf(batch);
  }

  // ---- the device ----

  class DeviceQueue {
    var records: seq<Stored>
    var inFlight: bool

    ghost predicate Valid()
      reads this
    {
      DistinctScans(records) && InOrder(records)
    }

    constructor ()
      ensures Valid() && records == [] && !inFlight
    {
      records, inFlight := [], false;
    }

    /** enqueuePendingCheckin: INSERT OR IGNORE, at the place its checked_in_at gives it. */
    method Enqueue(scan: string, token: string, checkedInAt: int)
      requires Valid()
      modifies this`records
      ensures Valid()
      ensures (exists x :: x in old(records) && x.scan == scan) ==> records == old(records)
      ensures !(exists x :: x in old(records) && x.scan == scan) ==>
        exists i :: 0 <= i <= |old(records)|
          && records == Inserted(old(records), i, Stored(scan, token, checkedInAt, false, 0, None))
    {
      var i := |records|;
      for j := 0 to |records|
        invariant forall n | 0 <= n < j :: records[n].scan != scan
      {
        if records[j].scan == scan { return; }
      }
      while i > 0 && records[i - 1].checkedInAt > checkedInAt
        invariant 0 <= i <= |records|
        invariant forall n | i <= n < |records| :: records[n].checkedInAt > checkedInAt
      {
        i := i - 1;
      }
      InsertedDistinct(records, i, Stored(scan, token, checkedInAt, false, 0, None));
      InsertedInOrder(records, i, Stored(scan, token, checkedInAt, false, 0, None));
      records := Inserted(records, i, Stored(scan, token, checkedInAt, false, 0, None));
    }

    /** listPendingCheckins. */
    method ListPending(limit: nat) returns (batch: seq<Stored>)
      ensures batch == Head(records, limit)
    {
      batch := [];
      var i := 0;
      while i < |records| && |batch| < limit
        invariant 0 <= i <= |records| && |batch| <= limit
        invariant PendingOf(records) == batch + PendingOf(records[i..])
      {
        assert records[i..][1..] == records[i + 1..];
        if !records[i].synced { batch := batch + [records[i]]; }
        i := i + 1;
      }
    }

    /** markCheckinsSynced: one UPDATE .. WHERE device_scan_id for each item. */
    method MarkCheckinsSynced(scans: seq<string>)
      requires Valid() && forall m, n | 0 <= m < n < |scans| :: scans[m] != scans[n]
      modifies this`records
      ensures Valid()
      ensures records == MarkSynced(old(records), set n | 0 <= n < |scans| :: scans[n])
    {
      ghost var before, done: set<string> := records, {};
      assert records == MarkSynced(before, done);
      for i := 0 to |scans|
        invariant done == set n | 0 <= n < i :: scans[n]
        invariant records == MarkSynced(before, done)
      {
        assert scans[i] !in done;
        ghost var mid := records;
        records := MarkSynced(records, {scans[i]});
        assert records == MarkSynced(before, done + {scans[i]});
        done := done + {scans[i]};
      }
    }

    /** markPendingCheckinsRetained: one UPDATE .. WHERE device_scan_id for each item. */
    method MarkPendingCheckinsRetained(scans: seq<string>, codes: map<string, Option<string>>)
      requires Valid() && forall m, n | 0 <= m < n < |scans| :: scans[m] != scans[n]
      requires forall x :: x in scans <==> x in codes
      modifies this`records
      ensures Valid()
      ensures records == MarkRetained(old(records), codes)
    {
      ghost var before, done: map<string, Option<string>> := records, map[];
      assert records == MarkRetained(before, done);
      for i := 0 to |scans|
        invariant done.Keys == (set n | 0 <= n < i :: scans[n]) && done.Keys <= codes.Keys
        invariant forall x <- done :: done[x] == codes[x]
        invariant records == MarkRetained(before, done)
      {
        assert scans[i] !in done;
        ghost var more := done[scans[i] := codes[scans[i]]];
        OneMoreRetained(before, done, scans[i], codes[scans[i]]);
        records := MarkRetained(records, map[scans[i] := codes[scans[i]]]);
        done := more;
      }
      assert done == codes;
    }

    /**
     * One synchronisation: single flight, the head of the queue, and every answer written back.
     * reply is None when the request or its response was lost.
     */
    method SyncPending(limit: nat, reply: Option<seq<Reply>>) returns (cleared: nat)
      requires Valid() && (reply.Some? ==> |reply.value| == |Head(records, limit)|)
      modifies this
      ensures Valid() && inFlight == old(inFlight)
      ensures old(inFlight) || reply == None ==> records == old(records) && cleared == 0
      ensures !old(inFlight) && reply.Some? ==>
        && records == AfterRound(old(records), Head(old(records), limit), reply.value)
        && cleared == |SettledScans(Head(old(records), limit), reply.value)|
        && |PendingOf(records)| == |PendingOf(old(records))| - cleared
    {
      hide PendingOf, Head, SettledScans, MarkSynced, MarkRetained, RefusedCodes;
      cleared := 0;
      if inFlight { return; }
      inFlight := true;
      var batch := ListPending(limit);
      if reply.Some? && batch != [] {
        ghost var before := records;
        HeadIsDistinct(before, limit);
        var synced, retained := Classify(batch, reply.value);
        MarkCheckinsSynced(synced);
        ScanSet(synced, SettledScans(batch, reply.value));
        DistinctCount(synced);
        cleared := |synced|;
        MarkPendingCheckinsRetained(retained, RefusedCodes(batch, reply.value));
        RoundShrinks(before, limit, reply.value);
      } else if batch == [] {
        NothingSettled(records, batch, reply);
      }
      inFlight := false;
    }
  }
}
