/**
 * The search index and the workshops table it follows: admin edits that read a row, write it and then
 * send a change event, and a worker that reads the row again and writes the document.
 */
module SearchIndex {
  import opened Wrappers
  import opened Tables

  /** The columns an admin edits. */
  datatype Listing = Listing(title: string, description: string, speaker: string, room: string, startsAt: int,
                             endsAt: int, capacity: int, price: int, paymentRequired: bool, status: WorkshopStatus)

  /** An indexed document without its updatedAt stamp. */
  datatype Document = Document(id: Id, title: string, description: string, speaker: string, room: string,
                               startsAt: int, status: WorkshopStatus, paymentRequired: bool)

  datatype Input = Input(title: Option<string>, description: Option<string>, speaker: Option<string>,
                         room: Option<string>, startsAt: Option<int>, endsAt: Option<int>, capacity: Option<int>,
                         price: Option<int>, status: Option<WorkshopStatus>)

  function Or<T>(given: Option<T>, current: T): T {
    match given case Some(x) => x case None => current
  }

  /** The row updateWorkshop writes over the one it read. */
  function Edited(current: Listing, input: Input): Listing {
    var price := Or(input.price, current.price);
    Listing(Or(input.title, current.title), Or(input.description, current.description),
            Or(input.speaker, current.speaker), Or(input.room, current.room), Or(input.startsAt, current.startsAt),
            Or(input.endsAt, current.endsAt), Or(input.capacity, current.capacity), price, price > 0,
            Or(input.status, current.status))
  }

  /** A column after an update: the value given for it, or its old one. */
  predicate Takes<T(==)>(given: Option<T>, before: T, after: T) {
    && (given.Some? ==> after == given.value)
    && (given.None? ==> after == before)
  }

  /** Column by column, what an update with this input makes of a row. */
  predicate Updated(before: Listing, input: Input, after: Listing) {
    && Takes(input.title, before.title, after.title)
    && Takes(input.description, before.description, after.description)
    && Takes(input.speaker, before.speaker, after.speaker)
    && Takes(input.room, before.room, after.room)
    && Takes(input.startsAt, before.startsAt, after.startsAt)
    && Takes(input.endsAt, before.endsAt, after.endsAt)
    && Takes(input.capacity, before.capacity, after.capacity)
    && Takes(input.price, before.price, after.price)
    && Takes(input.status, before.status, after.status)
    && (after.paymentRequired <==> after.price > 0)
  }

  /** The columns determine the row, so an update has one result. */
  lemma UpdatedIsEdited(before: Listing, input: Input, after: Listing)
    ensures Updated(before, input, after) <==> after == Edited(before, input)
  {
  }

  /** Whether updateWorkshop sends a change event. */
  predicate Announces(before: Listing, after: Listing) {
    || before.startsAt != after.startsAt || before.endsAt != after.endsAt || before.room != after.room
    || before.status != after.status || before.title != after.title || before.description != after.description
    || before.speaker != after.speaker || before.price != after.price
  }

  function ToSearchDocument(w: Id, row: Listing): Document {
    Document(w, row.title, row.description, row.speaker, row.room, row.startsAt, row.status,
             row.paymentRequired || row.price > 0)
  }

  /** A change is announced exactly when some column beside the capacity changes. */
  lemma AnnouncedExactly(before: Listing, after: Listing)
    requires before.paymentRequired == (before.price > 0) && after.paymentRequired == (after.price > 0)
    ensures Announces(before, after) <==> after != before.(capacity := after.capacity)
  {
  }

  /** Every field of the document is the row's, and it asks for payment when the row does or has a price. */
  lemma DocumentIsOfRow(w: Id, row: Listing)
    ensures var doc := ToSearchDocument(w, row);
            && doc.id == w && doc.title == row.title && doc.description == row.description
            && doc.speaker == row.speaker && doc.room == row.room && doc.startsAt == row.startsAt
            && doc.status == row.status && (!doc.paymentRequired <==> !row.paymentRequired && row.price <= 0)
  {
  }

  /** The document a row calls for. */
  function Wanted(rows: map<Id, Listing>, w: Id): Option<Document> {
    if w in rows && rows[w].status == Published then Some(ToSearchDocument(w, rows[w])) else None
  }

  function Found(index: map<Id, Document>, w: Id): Option<Document> {
    if w in index then Some(index[w]) else None
  }

  function Put(index: map<Id, Document>, w: Id, doc: Option<Document>): map<Id, Document> {
    match doc case Some(d) => index[w := d] case None => index - {w}
  }

  predicate Agrees(rows: map<Id, Listing>, index: map<Id, Document>, w: Id) {
    Found(index, w) == Wanted(rows, w)
  }

  // ---- edits and the worker, step by step ----

  datatype Change = Updating(input: Input) | Cancelling

  datatype Edit = HasRead(w: Id, before: Listing, change: Change) | HasWritten(w: Id, announce: bool)

  datatype Worker = Idle | Took(w: Id) | Holding(w: Id, doc: Option<Document>)

  datatype Site = Site(rows: map<Id, Listing>, index: map<Id, Document>, queue: multiset<Id>,
                       edits: map<Id, Edit>, worker: Worker)

  datatype SiteEvent =
    | CreateRow(e: Id, w: Id, draft: Listing)
    | Begin(e: Id, w: Id, change: Change)
    | Write(e: Id)
    | Finish(e: Id)
    | Drop(e: Id)
    | Take(w: Id)
    | Fetch
    | Store
    | Fail

  function WriteEdit(s: Site, e: Id, edit: Edit): Site
    requires edit.HasRead?
  {
    var w := edit.w;
    if w !in s.rows || (edit.change.Cancelling? && edit.before.status == WorkshopCancelled) then
      s.(edits := s.edits - {e})
    else if edit.change.Cancelling? then
      s.(rows := s.rows[w := s.rows[w].(status := WorkshopCancelled)], edits := s.edits[e := HasWritten(w, true)])
    else
      var next := Edited(edit.before, edit.change.input);
      s.(rows := s.rows[w := next], edits := s.edits[e := HasWritten(w, Announces(edit.before, next))])
  }

  /** A refused edit is a Drop after its Begin; a failed job goes back on the queue. */
  function SiteStep(s: Site, event: SiteEvent): Site {
    match event
    case CreateRow(e, w, draft) =>
      if e in s.edits || w in s.rows then s
      else s.(rows := s.rows[w := draft.(paymentRequired := draft.price > 0)],
              edits := s.edits[e := HasWritten(w, true)])
    case Begin(e, w, change) =>
      if e in s.edits || w !in s.rows then s else s.(edits := s.edits[e := HasRead(w, s.rows[w], change)])
    case Write(e) =>
      if e in s.edits && s.edits[e].HasRead? then WriteEdit(s, e, s.edits[e]) else s
    case Finish(e) =>
      if e !in s.edits || s.edits[e].HasRead? then s
      else s.(queue := if s.edits[e].announce then s.queue + multiset{s.edits[e].w} else s.queue,
              edits := s.edits - {e})
    case Drop(e) =>
      if e in s.edits && s.edits[e].HasRead? then s.(edits := s.edits - {e}) else s
    case Take(w) =>
      if s.worker.Idle? && w in s.queue then s.(queue := s.queue - multiset{w}, worker := Took(w)) else s
    case Fetch =>
      if s.worker.Took? then s.(worker := Holding(s.worker.w, Wanted(s.rows, s.worker.w))) else s
    case Store =>
      if s.worker.Holding? then s.(index := Put(s.index, s.worker.w, s.worker.doc), worker := Idle) else s
    case Fail =>
      if s.worker.Idle? then s else s.(queue := s.queue + multiset{s.worker.w}, worker := Idle)
  }

  function SiteRun(s: Site, events: seq<SiteEvent>): Site
    decreases events
  {
    if events == [] then s else SiteRun(SiteStep(s, events[0]), events[1..])
  }

  // ---- what is outstanding ----

  ghost predicate Announcing(edits: map<Id, Edit>, w: Id) {
    exists e: Id :: e in edits && edits[e] == HasWritten(w, true)
  }

  /** A change event for w is still to be read by the worker. */
  ghost predicate Owed(s: Site, w: Id) {
    w in s.queue || Announcing(s.edits, w) || s.worker == Took(w)
  }

  /** What the index holds for w once the worker has stored what it has read. */
  function Coming(s: Site, w: Id): Option<Document> {
    if s.worker.Holding? && s.worker.w == w then s.worker.doc else Found(s.index, w)
  }

  ghost predicate Covered(s: Site, w: Id) {
    Owed(s, w) || Coming(s, w) == Wanted(s.rows, w)
  }

  predicate Priced(rows: map<Id, Listing>) {
    forall w <- rows :: rows[w].paymentRequired == (rows[w].price > 0)
  }

  ghost predicate SiteInv(s: Site) {
    Priced(s.rows) && forall w: Id :: Covered(s, w)
  }

  /** Nothing about w is outstanding: no event, and the worker is not on it. */
  ghost predicate Quiet(s: Site, w: Id) {
    !Owed(s, w) && !(s.worker.Holding? && s.worker.w == w)
  }

  /** A refused edit changes nothing but itself, and nothing comes of it later. */
  lemma DropForgets(s: Site, e: Id)
    requires e in s.edits && s.edits[e].HasRead?
    ensures var dropped := SiteStep(s, Drop(e));
            && dropped == s.(edits := dropped.edits)
            && SiteStep(dropped, Write(e)) == dropped && SiteStep(dropped, Finish(e)) == dropped
            && forall f | f in s.edits && f != e :: f in dropped.edits && dropped.edits[f] == s.edits[f]
  {
  }

  // ---- one admin edit per workshop at a time ----

  /** An edit reads its row only when no other edit has read that row without writing it yet. */
  predicate OneEditAtATime(s: Site, event: SiteEvent) {
    event.Begin? ==> forall e <- s.edits :: s.edits[e].HasRead? ==> s.edits[e].w != event.w
  }

  predicate OneEditRun(s: Site, events: seq<SiteEvent>)
    decreases events
  {
    events == [] || (OneEditAtATime(s, events[0]) && OneEditRun(SiteStep(s, events[0]), events[1..]))
  }

  /** No two unwritten edits share a workshop, and what an unwritten edit read is still the row. */
  predicate Serial(s: Site) {
    && (forall e <- s.edits :: s.edits[e].HasRead? ==>
          s.edits[e].w in s.rows && s.edits[e].before == s.rows[s.edits[e].w])
    && (forall e <- s.edits, f <- s.edits :: e != f && s.edits[e].HasRead? && s.edits[f].HasRead?
          ==> s.edits[e].w != s.edits[f].w)
  }

  /** The one step that can break the agreement: a write that changes the wanted document and sends nothing. */
  ghost predicate Silent(s: Site, e: Id) {
    && e in s.edits && s.edits[e].HasRead? && s.edits[e].w in s.rows && s.edits[e].change.Updating?
    && var edit := s.edits[e];
       var next := Edited(edit.before, edit.change.input);
       && !Announces(edit.before, next)
       && Wanted(s.rows[edit.w := next], edit.w) != Wanted(s.rows, edit.w)
       && !Owed(s, edit.w)
  }

  // ---- every step ----

  lemma OtherEditsAnnounce(edits: map<Id, Edit>, e: Id, edit: Edit, w: Id)
    requires e in edits && edits[e].HasRead?
    ensures Announcing(edits[e := edit], w) <==> Announcing(edits, w) || edit == HasWritten(w, true)
    ensures Announcing(edits - {e}, w) <==> Announcing(edits, w)
  {
    if Announcing(edits, w) {
      var f: Id :| f in edits && edits[f] == HasWritten(w, true);
      assert f in edits[e := edit] && edits[e := edit][f] == HasWritten(w, true);
      assert f in edits - {e} && (edits - {e})[f] == HasWritten(w, true);
    }
    if edit == HasWritten(w, true) {
      assert edits[e := edit][e] == HasWritten(w, true);
    }
  }

  lemma NewEditAnnounces(edits: map<Id, Edit>, e: Id, edit: Edit, w: Id)
    requires e !in edits
    ensures Announcing(edits[e := edit], w) <==> Announcing(edits, w) || edit == HasWritten(w, true)
  {
    if Announcing(edits, w) {
      var f: Id :| f in edits && edits[f] == HasWritten(w, true);
      assert edits[e := edit][f] == HasWritten(w, true);
    }
    if edit == HasWritten(w, true) {
      assert edits[e := edit][e] == HasWritten(w, true);
    }
  }

  lemma WriteCovers(s: Site, e: Id, w: Id)
    requires e in s.edits && s.edits[e].HasRead? && Covered(s, w)
    ensures !(Silent(s, e) && w == s.edits[e].w) <==> Covered(SiteStep(s, Write(e)), w)
  {
    var edit := s.edits[e];
    var next := SiteStep(s, Write(e));
    OtherEditsAnnounce(s.edits, e, if e in next.edits then next.edits[e] else edit, w);
    assert w != edit.w ==> Wanted(next.rows, w) == Wanted(s.rows, w);
    assert Owed(s, w) ==> Owed(next, w);
  }

  lemma FinishCovers(s: Site, e: Id, w: Id)
    requires Covered(s, w)
    ensures Covered(SiteStep(s, Finish(e)), w)
  {
    var next := SiteStep(s, Finish(e));
    if Announcing(s.edits, w) {
      var f: Id :| f in s.edits && s.edits[f] == HasWritten(w, true);
      if f != e && next != s {
        assert f in next.edits && next.edits[f] == HasWritten(w, true);
      }
    }
  }

  lemma WorkerCovers(s: Site, event: SiteEvent, w: Id)
    requires event.Take? || event.Fetch? || event.Store? || event.Fail?
    requires Covered(s, w)
    ensures Covered(SiteStep(s, event), w)
  {
    var next := SiteStep(s, event);
    assert Announcing(next.edits, w) == Announcing(s.edits, w);
  }

  lemma CreateCovers(s: Site, e: Id, v: Id, draft: Listing, w: Id)
    requires Covered(s, w)
    ensures Covered(SiteStep(s, CreateRow(e, v, draft)), w)
  {
    var next := SiteStep(s, CreateRow(e, v, draft));
    if next != s { NewEditAnnounces(s.edits, e, HasWritten(v, true), w); }
    assert w != v ==> Wanted(next.rows, w) == Wanted(s.rows, w);
  }

  lemma ReadingCovers(s: Site, event: SiteEvent, w: Id)
    requires event.Begin? || event.Drop?
    requires Covered(s, w)
    ensures Covered(SiteStep(s, event), w)
  {
    var next := SiteStep(s, event);
    if event.Begin? && next != s { NewEditAnnounces(s.edits, event.e, next.edits[event.e], w); }
    if event.Drop? && next != s { OtherEditsAnnounce(s.edits, event.e, s.edits[event.e], w); }
    assert Announcing(next.edits, w) == Announcing(s.edits, w);
  }

  lemma WriteOrNothing(s: Site, e: Id, w: Id)
    requires Covered(s, w)
    ensures !(Silent(s, e) && w == s.edits[e].w) <==> Covered(SiteStep(s, Write(e)), w)
  {
    if e in s.edits && s.edits[e].HasRead? { WriteCovers(s, e, w); }
  }

  lemma StepCovers(s: Site, event: SiteEvent, w: Id)
    requires Covered(s, w)
    ensures !(event.Write? && Silent(s, event.e) && w == s.edits[event.e].w) ==> Covered(SiteStep(s, event), w)
  {
    hide Covered, SiteStep, Silent;
    match event
    case CreateRow(e, v, draft) => CreateCovers(s, e, v, draft, w);
    case Begin(_, _, _) => ReadingCovers(s, event, w);
    case Drop(_) => ReadingCovers(s, event, w);
    case Write(e) => WriteOrNothing(s, e, w);
    case Finish(e) => FinishCovers(s, e, w);
    case Take(_) => WorkerCovers(s, event, w);
    case Fetch => WorkerCovers(s, event, w);
    case Store => WorkerCovers(s, event, w);
    case Fail => WorkerCovers(s, event, w);
  }

  lemma StepPriced(s: Site, event: SiteEvent)
    requires Priced(s.rows)
    ensures Priced(SiteStep(s, event).rows)
  {
    var next := SiteStep(s, event);
    assert forall w <- next.rows :: next.rows[w].paymentRequired == (next.rows[w].price > 0);
  }

  /** Every step keeps the agreement, except exactly a silent write. */
  lemma StepKeepsUnlessSilent(s: Site, event: SiteEvent)
    requires SiteInv(s)
    ensures SiteInv(SiteStep(s, event)) <==> !(event.Write? && Silent(s, event.e))
  {
    hide Covered, SiteStep, Owed, Wanted, Announces, Edited, Priced;
    StepPriced(s, event);
    forall w: Id
      ensures !(event.Write? && Silent(s, event.e) && w == s.edits[event.e].w) ==> Covered(SiteStep(s, event), w)
    {
      StepCovers(s, event, w);
    }
    if event.Write? && Silent(s, event.e) {
      WriteOrNothing(s, event.e, s.edits[event.e].w);
      assert !Covered(SiteStep(s, event), s.edits[event.e].w);
    }
  }

  /** An edit whose row is as it read it never writes silently. */
  lemma SerialIsNotSilent(s: Site, e: Id)
    requires Serial(s) && Priced(s.rows)
    ensures !Silent(s, e)
  {
  }

  lemma StepSerial(s: Site, event: SiteEvent)
    requires Serial(s) && OneEditAtATime(s, event)
    ensures Serial(SiteStep(s, event))
  {
  }

  lemma StepIsSafe(s: Site, event: SiteEvent)
    requires SiteInv(s) && Serial(s)
    ensures SiteInv(SiteStep(s, event))
  {
    hide Covered, Silent, SiteStep, Serial, Priced;
    StepKeepsUnlessSilent(s, event);
    if event.Write? { SerialIsNotSilent(s, event.e); }
  }

  lemma {:induction false} OneEditRunKeeps(s: Site, events: seq<SiteEvent>)
    requires SiteInv(s) && Serial(s) && OneEditRun(s, events)
    ensures SiteInv(SiteRun(s, events)) && Serial(SiteRun(s, events))
    decreases events
  {
    hide SiteInv, Serial, SiteStep, OneEditAtATime, Silent;
    if events != [] {
      StepIsSafe(s, events[0]);
      StepSerial(s, events[0]);
      OneEditRunKeeps(SiteStep(s, events[0]), events[1..]);
    }
  }

  /** Main result: after any run, a workshop with nothing outstanding has exactly the document its row calls for. */
  lemma QuietAgrees(s: Site, events: seq<SiteEvent>, w: Id)
    requires SiteInv(s) && Serial(s) && OneEditRun(s, events)
    requires Quiet(SiteRun(s, events), w)
    ensures Agrees(SiteRun(s, events).rows, SiteRun(s, events).index, w)
  {
    hide Owed, OneEditRun, SiteRun, Serial, Wanted, Priced;
    OneEditRunKeeps(s, events);
    assert Covered(SiteRun(s, events), w);
  }

  // ---- two edits at once ----

  lemma Unroll(s: Site, event: SiteEvent, rest: seq<SiteEvent>)
    ensures SiteRun(s, [event] + rest) == SiteRun(SiteStep(s, event), rest)
    ensures OneEditRun(s, [event] + rest) <==> OneEditAtATime(s, event) && OneEditRun(SiteStep(s, event), rest)
  {
    hide SiteStep, OneEditAtATime;
    assert ([event] + rest)[1..] == rest;
  }

  lemma RunNothing(s: Site)
    ensures SiteRun(s, []) == s && OneEditRun(s, [])
  {
  }

  lemma UnrollThree(s: Site, a: SiteEvent, b: SiteEvent, c: SiteEvent, rest: seq<SiteEvent>)
    ensures SiteRun(s, [a, b, c] + rest) == SiteRun(SiteStep(SiteStep(SiteStep(s, a), b), c), rest)
    ensures SiteRun(s, [a, b, c]) == SiteStep(SiteStep(SiteStep(s, a), b), c)
    ensures OneEditAtATime(s, a) && !b.Begin? && !c.Begin? ==> OneEditRun(s, [a, b, c])
  {
    hide SiteStep, SiteRun;
    assert [a, b, c] + rest == [a] + ([b] + ([c] + rest)) && [a, b, c] == [a] + ([b] + ([c] + []));
    var s1, s2 := SiteStep(s, a), SiteStep(SiteStep(s, a), b);
    Unroll(s, a, [b] + ([c] + rest));
    Unroll(s, a, [b] + ([c] + []));
    Unroll(s1, b, [c] + rest);
    Unroll(s1, b, [c] + []);
    Unroll(s2, c, rest);
    Unroll(s2, c, []);
    RunNothing(SiteStep(s2, c));
  }

  const NO_INPUT := Input(None, None, None, None, None, None, None, None, None)

  /** One edit gives the workshop a new room, the other, overlapping it, a new capacity. */
  function Overlapping(w: Id, room: string, capacity: int): seq<SiteEvent> {
    [Begin(0, w, Updating(NO_INPUT.(room := Some(room)))),
     Begin(1, w, Updating(NO_INPUT.(capacity := Some(capacity)))), Write(0)]
    + ([Finish(0), Take(w), Fetch] + [Store, Write(1), Finish(1)])
  }

  lemma StartAgrees(s: Site, w: Id)
    requires s.edits == map[] && s.queue == multiset{} && s.worker.Idle? && Priced(s.rows)
    requires s.rows.Keys == {w} && s.rows[w].status == Published && s.index == map[w := ToSearchDocument(w, s.rows[w])]
    ensures SiteInv(s) && Serial(s)
  {
    forall v: Id
      ensures Covered(s, v)
    {
    }
  }

  lemma FirstThird(s0: Site, s3: Site, w: Id, room: string, other: Change)
    requires w in s0.rows && s0.edits == map[] && s0.rows[w].room != room
    requires s0.rows[w].paymentRequired == (s0.rows[w].price > 0)
    requires s3 == s0.(rows := s0.rows[w := s0.rows[w].(room := room)],
                       edits := map[0 := HasWritten(w, true), 1 := HasRead(w, s0.rows[w], other)])
    ensures var s1 := SiteStep(s0, Begin(0, w, Updating(NO_INPUT.(room := Some(room)))));
      SiteStep(SiteStep(s1, Begin(1, w, other)), Write(0)) == s3
  {
  }

  lemma SecondThird(s3: Site, s6: Site, w: Id)
    requires s3.queue == multiset{} && s3.worker.Idle? && 0 in s3.edits && s3.edits[0] == HasWritten(w, true)
    requires s6 == s3.(edits := s3.edits - {0}, worker := Holding(w, Wanted(s3.rows, w)))
    ensures SiteStep(SiteStep(SiteStep(s3, Finish(0)), Take(w)), Fetch) == s6
  {
    assert SiteStep(s3, Finish(0)).queue == multiset{w};
    assert SiteStep(SiteStep(s3, Finish(0)), Take(w)).queue == multiset{};
  }

  lemma LastThird(s6: Site, w: Id, row: Listing, room: string, capacity: int)
    requires s6.edits == map[1 := HasRead(w, row, Updating(NO_INPUT.(capacity := Some(capacity))))]
    requires row.status == Published && row.paymentRequired == (row.price > 0) && row.room != room
    requires s6.queue == multiset{} && s6.rows == map[w := row.(room := room)]
    requires s6.worker == Holding(w, Wanted(s6.rows, w))
    ensures var end := SiteStep(SiteStep(SiteStep(s6, Store), Write(1)), Finish(1));
            Quiet(end, w) && !Agrees(end.rows, end.index, w)
  {
    var s8 := SiteStep(SiteStep(s6, Store), Write(1));
    assert s8.rows[w] == row.(capacity := capacity) && s8.edits == map[1 := HasWritten(w, false)];
    assert SiteStep(s8, Finish(1)).edits == map[];
  }

  /**
   * The second edit writes back the room it read before the first and sends nothing. Nothing is
   * outstanding, and the index is wrong.
   */
  lemma OverlappingEditsLoseAgreement(w: Id, row: Listing, room: string, capacity: int)
    requires row.status == Published && row.room != room && row.paymentRequired == (row.price > 0)
    ensures var start := Site(map[w := row], map[w := ToSearchDocument(w, row)], multiset{}, map[], Idle);
            var end := SiteRun(start, Overlapping(w, room, capacity));
            SiteInv(start) && Serial(start) && Quiet(end, w) && !Agrees(end.rows, end.index, w)
  {
    hide SiteRun, SiteStep, SiteInv, Serial, Quiet, Agrees, Wanted, ToSearchDocument;
    var rename, resize := Updating(NO_INPUT.(room := Some(room))), Updating(NO_INPUT.(capacity := Some(capacity)));
    var changed := row.(room := room);
    var s0 := Site(map[w := row], map[w := ToSearchDocument(w, row)], multiset{}, map[], Idle);
    var s3 := Site(map[w := changed], s0.index, multiset{},
                   map[0 := HasWritten(w, true), 1 := HasRead(w, row, resize)], Idle);
    var s6 := s3.(edits := s3.edits - {0}, worker := Holding(w, Wanted(s3.rows, w)));
    UnrollThree(s0, Begin(0, w, rename), Begin(1, w, resize), Write(0),
                [Finish(0), Take(w), Fetch] + [Store, Write(1), Finish(1)]);
    FirstThird(s0, s3, w, room, resize);
    UnrollThree(s3, Finish(0), Take(w), Fetch, [Store, Write(1), Finish(1)]);
    SecondThird(s3, s6, w);
    assert s6.edits == map[1 := HasRead(w, row, resize)];
    UnrollThree(s6, Store, Write(1), Finish(1), []);
    LastThird(s6, w, row, room, capacity);
    StartAgrees(s0, w);
  }

  // ---- draining ----

  /** The index after the worker has handled the events es, one after the other. */
  function SyncAll(rows: map<Id, Listing>, index: map<Id, Document>, es: seq<Id>): map<Id, Document>
    decreases es
  {
    if es == [] then index else SyncAll(rows, Put(index, es[0], Wanted(rows, es[0])), es[1..])
  }

  /** What the events leave in the index depends neither on their order nor on how often each comes. */
  lemma {:induction false} SyncAllContent(rows: map<Id, Listing>, index: map<Id, Document>, es: seq<Id>, w: Id)
    ensures Found(SyncAll(rows, index, es), w) == if w in es then Wanted(rows, w) else Found(index, w)
    decreases es
  {
    if es != [] {
      SyncAllContent(rows, Put(index, es[0], Wanted(rows, es[0])), es[1..], w);
      assert w in es <==> w == es[0] || w in es[1..];
    }
  }

  function Jobs(es: seq<Id>): seq<SiteEvent> {
    if es == [] then [] else [Take(es[0]), Fetch, Store] + Jobs(es[1..])
  }

  lemma {:induction false} JobsDrain(s: Site, es: seq<Id>)
    requires s.worker.Idle? && multiset(es) == s.queue
    ensures SiteRun(s, Jobs(es)) == s.(queue := multiset{}, index := SyncAll(s.rows, s.index, es))
    decreases es
  {
    if es != [] {
      assert es == [es[0]] + es[1..];
      var next := SiteStep(SiteStep(SiteStep(s, Take(es[0])), Fetch), Store);
      assert multiset(es[1..]) == s.queue - multiset{es[0]};
      UnrollThree(s, Take(es[0]), Fetch, Store, Jobs(es[1..]));
      JobsDrain(next, es[1..]);
    }
  }

  /** Once no edit owes an event, handling the queue in any order restores the whole index. */
  lemma DrainRestores(s: Site, es: seq<Id>)
    requires SiteInv(s) && s.worker.Idle? && multiset(es) == s.queue
    requires forall e <- s.edits :: s.edits[e].HasRead?
    ensures SiteRun(s, Jobs(es)).queue == multiset{}
    ensures forall w: Id :: Agrees(s.rows, SiteRun(s, Jobs(es)).index, w)
  {
    JobsDrain(s, es);
    forall w: Id
      ensures Agrees(s.rows, SyncAll(s.rows, s.index, es), w)
    {
      SyncAllContent(s.rows, s.index, es, w);
      assert Covered(s, w);
      assert w in s.queue <==> w in multiset(es);
    }
  }

  // ---- whole edits ----

  function Edits(w: Id, change: Change): seq<SiteEvent> {
    [Begin(0, w, change), Write(0), Finish(0)]
  }

  function Creation(w: Id, draft: Listing): seq<SiteEvent> {
    [CreateRow(0, w, draft), Finish(0)]
  }

  lemma CreationKeeps(s: Site, w: Id, draft: Listing)
    requires SiteInv(s) && s.edits == map[] && w !in s.rows
    ensures SiteInv(SiteRun(s, Creation(w, draft)))
    ensures SiteRun(s, Creation(w, draft))
         == s.(rows := s.rows[w := draft.(paymentRequired := draft.price > 0)], queue := s.queue + multiset{w})
  {
    hide SiteInv, SiteRun;
    var s1 := SiteStep(s, CreateRow(0, w, draft));
    assert SiteStep(s1, Finish(0)).edits == map[];
    assert Creation(w, draft) == [CreateRow(0, w, draft)] + ([Finish(0)] + []);
    Unroll(s, CreateRow(0, w, draft), [Finish(0)] + []);
    Unroll(s1, Finish(0), []);
    RunNothing(SiteStep(s1, Finish(0)));
    OneEditRunKeeps(s, Creation(w, draft));
  }

  /** The site after an edit that nothing interrupted. */
  function WholeEdit(s: Site, w: Id, change: Change): Site
    requires w in s.rows
  {
    match change
    case Cancelling =>
      if s.rows[w].status == WorkshopCancelled then s
      else s.(rows := s.rows[w := s.rows[w].(status := WorkshopCancelled)], queue := s.queue + multiset{w})
    case Updating(input) =>
      var next := Edited(s.rows[w], input);
      s.(rows := s.rows[w := next], queue := if Announces(s.rows[w], next) then s.queue + multiset{w} else s.queue)
  }

  lemma FinishWhole(s: Site, w: Id, announce: bool)
    requires s.edits == map[0 := HasWritten(w, announce)]
    ensures SiteStep(s, Finish(0))
         == s.(edits := map[], queue := if announce then s.queue + multiset{w} else s.queue)
  {
    assert s.edits - {0} == map[];
  }

  lemma WriteWhole(s: Site, w: Id, change: Change)
    requires w in s.rows && s.edits == map[0 := HasRead(w, s.rows[w], change)]
    ensures var whole := WholeEdit(s, w, change);
            var announce := change.Cancelling? || Announces(s.rows[w], whole.rows[w]);
            SiteStep(s, Write(0)) ==
              if change.Cancelling? && s.rows[w].status == WorkshopCancelled then s.(edits := map[])
              else s.(rows := whole.rows, edits := map[0 := HasWritten(w, announce)])
  {
    hide Edited, Announces;
    assert s.edits - {0} == map[];
    assert forall edit: Edit :: s.edits[0 := edit] == map[0 := edit];
  }

  lemma EditsAreWhole(s: Site, w: Id, change: Change)
    requires s.edits == map[] && w in s.rows
    ensures SiteStep(SiteStep(SiteStep(s, Begin(0, w, change)), Write(0)), Finish(0)) == WholeEdit(s, w, change)
  {
    hide Edited, Announces;
    var s1 := s.(edits := map[0 := HasRead(w, s.rows[w], change)]);
    assert SiteStep(s, Begin(0, w, change)) == s1;
    WriteWhole(s1, w, change);
    var s2 := SiteStep(s1, Write(0));
    if 0 in s2.edits { FinishWhole(s2, w, s2.edits[0].announce); }
  }

  /** One whole edit with nothing beside it. */
  lemma EditsKeep(s: Site, w: Id, change: Change)
    requires SiteInv(s) && s.edits == map[] && w in s.rows
    ensures SiteInv(SiteRun(s, Edits(w, change)))
    ensures SiteRun(s, Edits(w, change)) == WholeEdit(s, w, change)
  {
    hide SiteInv, SiteRun, SiteStep, WholeEdit, OneEditRun;
    UnrollThree(s, Begin(0, w, change), Write(0), Finish(0), []);
    EditsAreWhole(s, w, change);
    OneEditRunKeeps(s, Edits(w, change));
  }

  lemma UpdateAnnounces(s: Site, w: Id, input: Input)
    requires SiteInv(s) && w in s.rows
    ensures var next := Edited(s.rows[w], input);
      Announces(s.rows[w], next) <==> next != s.rows[w].(capacity := next.capacity)
  {
    AnnouncedExactly(s.rows[w], Edited(s.rows[w], input));
  }

  /** The index has the workshop, and with the row's own fields, exactly when the row is published. */
  predicate Listed(rows: map<Id, Listing>, index: map<Id, Document>, w: Id)
    requires w in rows
  {
    && (w in index <==> rows[w].status == Published)
    && (w in index ==>
          var row := rows[w];
          index[w] == Document(w, row.title, row.description, row.speaker, row.room, row.startsAt, Published,
                               row.price > 0))
  }

  lemma AgreedIsListed(rows: map<Id, Listing>, index: map<Id, Document>, w: Id)
    requires w in rows && Agrees(rows, index, w) && Priced(rows)
    ensures Listed(rows, index, w)
  {
    DocumentIsOfRow(w, rows[w]);
  }

  lemma DrainLists(s: Site, es: seq<Id>, w: Id)
    requires SiteInv(s) && s.worker.Idle? && multiset(es) == s.queue && s.edits == map[] && w in s.rows
    ensures SiteRun(s, Jobs(es)).rows == s.rows && SiteRun(s, Jobs(es)).queue == multiset{}
    ensures Listed(s.rows, SiteRun(s, Jobs(es)).index, w)
  {
    hide Listed, Agrees;
    DrainRestores(s, es);
    JobsDrain(s, es);
    AgreedIsListed(s.rows, SiteRun(s, Jobs(es)).index, w);
  }

  /**
   * An update, then its change event handled with all others in any order: the row has each given
   * column and keeps the rest, no other row moves, and the index lists the workshop with the new row's
   * fields if that row is published, and has no document of it otherwise.
   */
  lemma UpdateReachesIndex(s: Site, w: Id, input: Input, es: seq<Id>)
    requires SiteInv(s) && s.edits == map[] && s.worker.Idle? && w in s.rows
    requires multiset(es) == SiteRun(s, Edits(w, Updating(input))).queue
    ensures var edited := SiteRun(s, Edits(w, Updating(input)));
            && edited.rows.Keys == s.rows.Keys && Updated(s.rows[w], input, edited.rows[w])
            && (forall v | v in s.rows && v != w :: edited.rows[v] == s.rows[v])
            && Listed(edited.rows, SiteRun(edited, Jobs(es)).index, w)
  {
    hide SiteInv, SiteRun, Listed, Announces, Updated, Edited;
    EditsKeep(s, w, Updating(input));
    var edited := SiteRun(s, Edits(w, Updating(input)));
    UpdatedIsEdited(s.rows[w], input, edited.rows[w]);
    DrainLists(edited, es, w);
  }

  /** After a cancellation and its event the index has no document of the workshop. */
  lemma CancellationReachesIndex(s: Site, w: Id, es: seq<Id>)
    requires SiteInv(s) && s.edits == map[] && s.worker.Idle? && w in s.rows
    requires multiset(es) == SiteRun(s, Edits(w, Cancelling)).queue
    ensures var cancelled := SiteRun(s, Edits(w, Cancelling));
            && cancelled.rows == s.rows[w := s.rows[w].(status := WorkshopCancelled)]
            && w !in SiteRun(cancelled, Jobs(es)).index
  {
    hide SiteInv, SiteRun;
    EditsKeep(s, w, Cancelling);
    DrainLists(SiteRun(s, Edits(w, Cancelling)), es, w);
  }

  /** A workshop created as published is found in the index once its event is handled, a draft is not. */
  lemma CreationReachesIndex(s: Site, w: Id, draft: Listing, es: seq<Id>)
    requires SiteInv(s) && s.edits == map[] && s.worker.Idle? && w !in s.rows
    requires multiset(es) == SiteRun(s, Creation(w, draft)).queue
    ensures var created := SiteRun(s, Creation(w, draft));
            && created.rows == s.rows[w := draft.(paymentRequired := draft.price > 0)]
            && Listed(created.rows, SiteRun(created, Jobs(es)).index, w)
  {
    hide SiteInv, SiteRun, Listed;
    CreationKeeps(s, w, draft);
    DrainLists(SiteRun(s, Creation(w, draft)), es, w);
  }

  lemma SyncCovers(s: Site, id: Id, index: map<Id, Document>)
    requires SiteInv(s) && s.worker.Idle? && index == Put(s.index, id, Wanted(s.rows, id))
    ensures SiteInv(s.(index := index))
  {
    forall w: Id
      ensures Covered(s.(index := index), w)
    {
      assert Covered(s, w);
    }
  }

  // ---- the services ----

  datatype Outcome = Done | NotFound | InvalidTimeRange | InvalidCapacity | CapacityLessThanConfirmed | Conflict
                   | Aborted | Unchanged

  /** assertNoConflicts: another workshop that is not cancelled overlaps in time, in the room or with the speaker. */
  predicate Clashes(rows: map<Id, Listing>, except: Option<Id>, row: Listing) {
    exists v :: v in rows && except != Some(v) && rows[v].status != WorkshopCancelled
      && rows[v].startsAt < row.endsAt && rows[v].endsAt > row.startsAt
      && (rows[v].room == row.room || rows[v].speaker == row.speaker)
  }

  /** Two workshops do not meet: one ends before the other starts, or neither room nor speaker is shared. */
  predicate Apart(a: Listing, b: Listing) {
    a.endsAt <= b.startsAt || b.endsAt <= a.startsAt || (a.room != b.room && a.speaker != b.speaker)
  }

  /** The row meets no workshop but except, among those not cancelled. */
  predicate FitsIn(rows: map<Id, Listing>, except: Option<Id>, row: Listing) {
    forall v | v in rows && except != Some(v) && rows[v].status != WorkshopCancelled :: Apart(rows[v], row)
  }

  lemma ClashesExactly(rows: map<Id, Listing>, except: Option<Id>, row: Listing)
    ensures Clashes(rows, except, row) <==> !FitsIn(rows, except, row)
  {
  }

  /** No room and no speaker is booked twice at a time. */
  ghost predicate Timetable(rows: map<Id, Listing>) {
    && (forall v | v in rows :: rows[v].startsAt < rows[v].endsAt && rows[v].capacity > 0)
    && forall v | v in rows && rows[v].status != WorkshopCancelled :: FitsIn(rows, Some(v), rows[v])
  }

  /** The answer to a new row, each refusal with its own condition. */
  predicate RightAnswer(rows: map<Id, Listing>, except: Option<Id>, row: Listing, confirmed: int, reserved: int,
                        o: Outcome)
  {
    && (o == InvalidTimeRange <==> row.startsAt >= row.endsAt)
    && (o == InvalidCapacity <==> row.startsAt < row.endsAt && row.capacity <= 0)
    && (o == CapacityLessThanConfirmed <==> row.startsAt < row.endsAt && 0 < row.capacity < confirmed)
    && (o == Conflict <==>
        row.startsAt < row.endsAt && 0 < row.capacity && confirmed <= row.capacity && !FitsIn(rows, except, row))
    && (o == Aborted <==>
        && row.startsAt < row.endsAt && 0 < row.capacity && confirmed <= row.capacity < reserved
        && FitsIn(rows, except, row))
    && (o == Done <==>
        && row.startsAt < row.endsAt && 0 < row.capacity && confirmed <= row.capacity && reserved <= row.capacity
        && FitsIn(rows, except, row))
  }

  lemma FittingKeepsTimetable(rows: map<Id, Listing>, id: Id, row: Listing)
    requires Timetable(rows) && row.startsAt < row.endsAt && row.capacity > 0
    requires FitsIn(rows, if id in rows then Some(id) else None, row)
    ensures Timetable(rows[id := row])
  {
  }

  lemma AnswerToUpdate(rows: map<Id, Listing>, id: Id, input: Input, confirmed: int, reserved: int, o: Outcome)
    requires id in rows && RightAnswer(rows, Some(id), Edited(rows[id], input), confirmed, reserved, o)
    ensures forall next | Updated(rows[id], input, next) :: RightAnswer(rows, Some(id), next, confirmed, reserved, o)
  {
    forall next | Updated(rows[id], input, next)
      ensures RightAnswer(rows, Some(id), next, confirmed, reserved, o)
    {
      UpdatedIsEdited(rows[id], input, next);
    }
  }

  lemma CancellingKeepsTimetable(rows: map<Id, Listing>, id: Id)
    requires Timetable(rows) && id in rows
    ensures Timetable(rows[id := rows[id].(status := WorkshopCancelled)])
  {
  }

  /** The admin service, the change queue and the index service around one workshops table. */
  class SearchIndexing {
    const configured: bool
    var rows: map<Id, Listing>
    var index: map<Id, Document>
    var queue: multiset<Id>

    function State(): Site
      reads this
    {
      Site(rows, index, queue, map[], Idle)
    }

    ghost predicate Valid()
      reads this
    {
      SiteInv(State()) && Timetable(rows)
    }

    constructor (configured: bool)
      ensures Valid() && this.configured == configured && State() == Site(map[], map[], multiset{}, map[], Idle)
    {
      this.configured := configured;
      rows, index, queue := map[], map[], multiset{};
    }

    method CreateWorkshop(id: Id, draft: Listing) returns (outcome: Outcome)
      requires Valid() && id !in rows
      modifies this`rows, this`queue
      ensures Valid()
      ensures RightAnswer(old(rows), None, draft, 0, 0, outcome)
      ensures outcome == Done ==> rows == old(rows)[id := draft.(paymentRequired := draft.price > 0)]
      ensures State() == if outcome == Done then SiteRun(old(State()), Creation(id, draft)) else old(State())
    {
      ClashesExactly(rows, None, draft);
      if draft.startsAt >= draft.endsAt { return InvalidTimeRange; }
      if draft.capacity <= 0 { return InvalidCapacity; }
      if Clashes(rows, None, draft) { return Conflict; }
      ghost var before := State();
      rows := rows[id := draft.(paymentRequired := draft.price > 0)];
      queue := queue + multiset{id};
      outcome := Done;
      FittingKeepsTimetable(before.rows, id, rows[id]);
      CreationKeeps(before, id, draft);
    }

    /** The checks of an update in their order, the last one the CHECK on the seat counters. */
    method CheckUpdate(id: Id, next: Listing, confirmed: int, reserved: int) returns (outcome: Outcome)
      ensures RightAnswer(rows, Some(id), next, confirmed, reserved, outcome)
      ensures outcome == Done ==>
        next.startsAt < next.endsAt && next.capacity > 0 && FitsIn(rows, Some(id), next)
      ensures outcome != NotFound
    {
      hide FitsIn, Clashes;
      ClashesExactly(rows, Some(id), next);
      if next.startsAt >= next.endsAt { return InvalidTimeRange; }
      if next.capacity <= 0 { return InvalidCapacity; }
      if next.capacity < confirmed { return CapacityLessThanConfirmed; }
      if Clashes(rows, Some(id), next) { return Conflict; }
      outcome := if next.capacity < reserved then Aborted else Done;
    }

    /** confirmed is the row's confirmed_registrations, reserved its reserved_count; both are others' columns. */
    method UpdateWorkshop(id: Id, input: Input, confirmed: int, reserved: int) returns (outcome: Outcome)
      requires Valid()
      modifies this`rows, this`queue
      ensures Valid()
      ensures outcome == NotFound <==> id !in old(rows)
      ensures forall next | id in old(rows) && Updated(old(rows)[id], input, next) ::
                RightAnswer(old(rows), Some(id), next, confirmed, reserved, outcome)
      ensures outcome == Done ==>
        && rows.Keys == old(rows).Keys && Updated(old(rows)[id], input, rows[id])
        && (forall w | w in rows && w != id :: rows[w] == old(rows)[w])
        && queue == if rows[id] == old(rows)[id].(capacity := rows[id].capacity) then old(queue)
                    else old(queue) + multiset{id}
      ensures State() == if outcome == Done then SiteRun(old(State()), Edits(id, Updating(input))) else old(State())
    {
      hide Updated, Edited, FitsIn, Timetable, SiteInv, Clashes, SiteRun, RightAnswer;
      if id !in rows { return NotFound; }
      var current := rows[id];
      var next := Edited(current, input);
      ghost var before := State();
      outcome := CheckUpdate(id, next, confirmed, reserved);
      AnswerToUpdate(rows, id, input, confirmed, reserved, outcome);
      if outcome != Done { return; }
      UpdatedIsEdited(current, input, next);
      UpdateAnnounces(before, id, input);
      FittingKeepsTimetable(rows, id, next);
      EditsKeep(before, id, Updating(input));
      rows := rows[id := next];
      if current.startsAt != next.startsAt || current.endsAt != next.endsAt || current.room != next.room
         || current.status != next.status {
        queue := queue + multiset{id};
      } else if current.title != next.title || current.description != next.description
                || current.speaker != next.speaker || current.price != next.price {
        queue := queue + multiset{id};
      }
    }

    method CancelWorkshop(id: Id) returns (outcome: Outcome)
      requires Valid()
      modifies this`rows, this`queue
      ensures Valid()
      ensures outcome == NotFound <==> id !in old(rows)
      ensures outcome == Unchanged <==> id in old(rows) && old(rows)[id].status == WorkshopCancelled
      ensures outcome == Done <==> id in old(rows) && old(rows)[id].status != WorkshopCancelled
      ensures outcome == Done ==> rows == old(rows)[id := old(rows)[id].(status := WorkshopCancelled)]
      ensures State() == if id in old(rows) then SiteRun(old(State()), Edits(id, Cancelling)) else old(State())
    {
      if id !in rows { return NotFound; }
      ghost var before := State();
      if rows[id].status == WorkshopCancelled {
        outcome := Unchanged;
      } else {
        rows := rows[id := rows[id].(status := WorkshopCancelled)];
        queue := queue + multiset{id};
        outcome := Done;
        CancellingKeepsTimetable(before.rows, id);
      }
      EditsKeep(before, id, Cancelling);
    }

    /** The job of one change event, taken off the queue by the worker. */
    method SyncWorkshop(id: Id)
      requires Valid()
      modifies this`index
      ensures Valid()
      ensures configured ==> Agrees(rows, index, id)
      ensures forall w: Id | w != id || !configured :: Found(index, w) == Found(old(index), w)
    {
      if !configured { return; }
      ghost var before := State();
      if id !in rows || rows[id].status != Published {
        index := index - {id};
      } else {
        index := index[id := ToSearchDocument(id, rows[id])];
      }
      SyncCovers(before, id, index);
    }

    /** Whatever the index held, afterwards it agrees everywhere. */
    method RebuildIndex()
      modifies this`index
      ensures forall w: Id :: Agrees(rows, index, w)
    {
      index := map[];
      var todo := set w <- rows | rows[w].status == Published;
      while todo != {}
        invariant forall w: Id :: if w in todo then w in rows && rows[w].status == Published else Agrees(rows, index, w)
        decreases |todo|
      {
        var w: Id :| w in todo;
        todo := todo - {w};
        index := index[w := ToSearchDocument(w, rows[w])];
      }
    }
  }
}
