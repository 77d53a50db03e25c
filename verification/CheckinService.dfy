/** The check-in service, query by query, against the functions of Checkins. */
module CheckinServices {
  import opened Wrappers
  import opened Tables
  import opened Checkins

  const MAX_SYNC_BATCH := 100

  function Entries(staff: Id, items: seq<Item>, now: int): (es: seq<Entry>)
    ensures |es| == |items| && forall i | 0 <= i < |items| :: es[i] == Entry(staff, items[i], now)
  {
    seq(|items|, i requires 0 <= i < |items| => Entry(staff, items[i], now))
  }

  /** The answers to a batch, each given on the rows that the items before it left. */
  ghost function Answers(db: Db, rows: Rows, tokens: Tokens, es: seq<Entry>): seq<Outcome>
    decreases es
  {
    if es == [] then []
    else
      var answered := Process(db, rows, tokens, es[0].staff, es[0].item, es[0].now);
      [answered.1] + Answers(db, answered.0, tokens, es[1..])
  }

  lemma ReplayIs(rows: Rows, staff: Id, item: Item, r: Id)
    requires UniqueSources(rows) && IsReplay(rows, staff, item, r)
    ensures ReplayRow(rows, staff, item) == Some(r)
  {
  }

  lemma NoReplay(rows: Rows, staff: Id, item: Item)
    requires forall r | r in rows :: !IsReplay(rows, staff, item, r)
    ensures ReplayRow(rows, staff, item) == None
  {
  }

  lemma RefusalFindsRow(db: Db, c: Claims, requested: Option<Id>)
    ensures Refusal(db, c, requested) == None ==> c.reg in db.registrations
  {
  }

  class CheckinService {
    const tokens: Tokens
    var rows: Rows

    constructor (tokens: Tokens)
      ensures this.tokens == tokens && rows == map[]
    {
      this.tokens, rows := tokens, map[];
    }

    /** insertCheckin: true when the row went in. */
    method InsertIfAbsent(db: Db, staff: Id, source: Source, r: Id, now: int) returns (inserted: bool)
      requires UniqueSources(rows) && r in db.registrations
      modifies this
      ensures UniqueSources(rows) && rows == InsertCheckin(db, old(rows), staff, source, r, now)
      ensures inserted <==> r !in old(rows) && r in rows
    {
      inserted := r !in rows && !SourceTaken(rows, staff, source);
      if inserted {
        rows := rows[r := Row(db.registrations[r].workshop, db.registrations[r].user, staff, source, now)];
      }
    }

    /** getPersistedCheckin. */
    method GetPersistedCheckin(r: Id) returns (found: Option<(Id, int)>)
      ensures found == if r in rows then Some((r, rows[r].at)) else None
    {
      found := if r in rows then Some((r, rows[r].at)) else None;
    }

    method ProcessSyncItem(db: Db, staff: Id, item: Item, now: int) returns (o: Outcome)
      requires UniqueSources(rows)
      modifies this
      ensures UniqueSources(rows)
      ensures (rows, o) == Process(db, old(rows), tokens, staff, item, now)
    {
      hide Refusal, IsReplay, SourceTaken;
      if r :| r in rows && IsReplay(rows, staff, item, r) {
        ReplayIs(rows, staff, item, r);
        return CheckedIn(r, rows[r].at);
      }
      NoReplay(rows, staff, item);
      var c := Verify(tokens, item.token, now);
      if c == None { return InvalidQr; }
      var refusal := Refusal(db, c.value, item.workshop);
      if refusal.Some? { return refusal.value; }
      var r := c.value.reg;
      RefusalFindsRow(db, c.value, item.workshop);
      if r in rows { return AlreadyIn(Some((r, rows[r].at))); }
      var inserted := InsertIfAbsent(db, staff, Offline(item.device, item.scan), r, now);
      if inserted { return CheckedIn(r, now); }
      var persisted := GetPersistedCheckin(r);
      o := AlreadyIn(persisted);
    }

    /** sync: a batch of 1 to 100 items, answered one for one. */
    method Sync(db: Db, staff: Id, items: seq<Item>, now: int) returns (results: Option<seq<Outcome>>)
      requires UniqueSources(rows)
      modifies this
      ensures UniqueSources(rows) && Grows(old(rows), rows)
      ensures results == None <==> |items| == 0 || |items| > MAX_SYNC_BATCH
      ensures results == None ==> rows == old(rows)
      ensures results.Some? ==> |results.value| == |items|
      ensures results.Some? ==> rows == SyncAll(db, old(rows), tokens, Entries(staff, items, now))
      ensures results.Some? ==> results.value == Answers(db, old(rows), tokens, Entries(staff, items, now))
    {
      hide Process, UniqueSources, Entries;
      if |items| == 0 || |items| > MAX_SYNC_BATCH { return None; }
      var answers := [];
      ghost var before, es := rows, Entries(staff, items, now);
      for i := 0 to |items|
        invariant UniqueSources(rows) && |answers| == i
        invariant SyncAll(db, before, tokens, es) == SyncAll(db, rows, tokens, es[i..])
        invariant Answers(db, before, tokens, es) == answers + Answers(db, rows, tokens, es[i..])
      {
        assert es[i..][1..] == es[i + 1..] && es[i..][0] == Entry(staff, items[i], now);
        var o := ProcessSyncItem(db, staff, items[i], now);
        answers := answers + [o];
      }
      SyncGrows(db, before, tokens, es);
      results := Some(answers);
    }

    /** scan: an online check-in, refused with the outcome that assertCandidate raises. */
    method Scan(db: Db, staff: Id, token: string, requested: Option<Id>, now: int) returns (o: Outcome)
      requires UniqueSources(rows)
      modifies this
      ensures UniqueSources(rows)
      ensures RightOutcome(db, tokens, token, requested, now, o)
      ensures if SettlesRecord(o) then TakenIn(db, old(rows), rows, staff, Online, tokens[token].reg, now, o)
              else rows == old(rows)
    {
      var c := Verify(tokens, token, now);
      if c == None { return InvalidQr; }
      var refusal := Refusal(db, c.value, requested);
      if refusal.Some? { return refusal.value; }
      var r := c.value.reg;
      if r in rows { return AlreadyIn(Some((r, rows[r].at))); }
      var inserted := InsertIfAbsent(db, staff, Online, r, now);
      o := CheckedIn(r, now);
    }
  }
}
