/** What overlapping requests do to the agreement of token keys, payloads, active set and queue. */
module TokenAgreement {
  import opened Wrappers
  import opened Tables
  import opened RegistrationRuns
  import opened WaitingRooms
  import opened JointAdmission
  import opened OverlappingAdmission
  import opened AdmissionOverlaps

  // ---- the step that breaks it ----

  /** A token is written for a user who holds a live one, or who has joined the queue again. */
  predicate Doubles(h: Hall, e: HallEvent, cfg: Config) {
    && e.Issue? && e.k in h.calls && h.calls[e.k].Decided? && e.drawn !in h.room.issued
    && (HoldsToken(h.room, h.calls[e.k].user, h.now)
        || (cfg.tokenTtlSeconds >= 1 && h.calls[e.k].user in h.room.queue))
  }

  lemma HandOverLive(room: Room, u: UserId, drawn: Token, now: int, expiresAt: int)
    requires Agrees(room, now) && drawn !in room.issued && HoldsToken(room, u, now)
    ensures var after := Hand(room, u, drawn, expiresAt);
      !TokensAgree(after.userTokens, after.payloads, after.active, now)
  {
    var after, t := Hand(room, u, drawn, expiresAt), room.userTokens[u].token;
    assert t in room.payloads && t in room.active && t != drawn;
    assert t in after.active && after.active[t] > now && after.payloads[t].user == u;
  }

  /** Writing a token keeps the agreement exactly for a user who neither holds one nor waits. */
  lemma HandAgrees(room: Room, u: UserId, drawn: Token, now: int, expiresAt: int)
    requires Agrees(room, now) && drawn !in room.issued && expiresAt >= now
    ensures Agrees(Hand(room, u, drawn, expiresAt), now)
       <==> !HoldsToken(room, u, now) && !(expiresAt > now && u in room.queue)
  {
    var after := Hand(room, u, drawn, expiresAt);
    if HoldsToken(room, u, now) {
      HandOverLive(room, u, drawn, now, expiresAt);
    } else {
      IssueTokens(room.userTokens, room.payloads, room.active, now, u, drawn, expiresAt);
      hide TokensAgree;
      assert AllDrawn(after.userTokens, after.payloads, after.active, after.issued);
    }
  }

  lemma QueueAgrees(h: Hall, k: Id, cfg: Config)
    requires Agrees(h.room, h.now) && k in h.calls && h.calls[k].Looked?
    ensures Agrees(QueueCall(h, cfg, k, h.calls[k]).room, h.now)
  {
    hide TokensAgree, AllDrawn, Rank;
  }

  lemma DecideAgrees(h: Hall, k: Id, cfg: Config)
    requires Agrees(h.room, h.now) && k in h.calls && h.calls[k].Ranked?
    ensures Agrees(DecideCall(h, cfg, k, h.calls[k]).room, h.now)
  {
    TrimKeeps(h.room.userTokens, h.room.payloads, h.room.active, h.now);
    hide TokensAgree, Granted;
  }

  lemma QueueEnds(h: Hall, k: Id, cfg: Config)
    requires k in h.calls && h.calls[k].Looked?
    ensures QueueCall(h, cfg, k, h.calls[k]).now == h.now
  {
    hide Rank;
  }

  lemma DecideEnds(h: Hall, k: Id, cfg: Config)
    requires k in h.calls && h.calls[k].Ranked?
    ensures DecideCall(h, cfg, k, h.calls[k]).now == h.now
  {
    hide Granted;
  }

  /** A step of overlapping requests keeps the keys in agreement if and only if it does not double a token. */
  lemma StepAgreesUnlessDoubled(h: Hall, e: HallEvent, w: Id, cfg: Config)
    requires Agrees(h.room, h.now)
    ensures var h2 := HallStep(h, e, w, cfg); Agrees(h2.room, h2.now) <==> !Doubles(h, e, cfg)
  {
    hide Agrees, Hand, QueueCall, DecideCall, Validate, HoldsToken, Step;
    match e
    case Tick(to) => if to >= h.now { TimeKeeps(h.room, h.now, to); }
    case Queue(k) => if k in h.calls && h.calls[k].Looked? { QueueEnds(h, k, cfg); QueueAgrees(h, k, cfg); }
    case Decide(k) => if k in h.calls && h.calls[k].Ranked? { DecideEnds(h, k, cfg); DecideAgrees(h, k, cfg); }
    case Issue(k, drawn) =>
      if k in h.calls && h.calls[k].Decided? && drawn !in h.room.issued {
        HandAgrees(h.room, h.calls[k].user, drawn, h.now, h.now + cfg.tokenTtlSeconds * 1000);
      }
    case Consume(k, q, token, underLimit) => ValidateKeeps(h.room, cfg, q.user, token, h.now, underLimit);
    case _ =>
  }

  ghost predicate NeverDoubles(h: Hall, es: seq<HallEvent>, w: Id, cfg: Config)
    decreases es
  {
    es == [] || (!Doubles(h, es[0], cfg) && NeverDoubles(HallStep(h, es[0], w, cfg), es[1..], w, cfg))
  }

  ghost predicate AlwaysAgrees(h: Hall, es: seq<HallEvent>, w: Id, cfg: Config)
    decreases es
  {
    Agrees(h.room, h.now) && (es == [] || AlwaysAgrees(HallStep(h, es[0], w, cfg), es[1..], w, cfg))
  }

  lemma {:induction false} RunAgreesUnlessDoubled(h: Hall, es: seq<HallEvent>, w: Id, cfg: Config)
    requires Agrees(h.room, h.now)
    ensures AlwaysAgrees(h, es, w, cfg) <==> NeverDoubles(h, es, w, cfg)
    decreases es
  {
    hide Agrees, HallStep, Doubles;
    if es != [] {
      StepAgreesUnlessDoubled(h, es[0], w, cfg);
      if !Doubles(h, es[0], cfg) { RunAgreesUnlessDoubled(HallStep(h, es[0], w, cfg), es[1..], w, cfg); }
    }
  }

  // ---- one admission request of a user at a time ----

  /** The user whose admission the call is about. */
  predicate AdmissionOf(call: Call, u: UserId) {
    (call.Looked? || call.Ranked? || call.Decided?) && call.user == u
  }

  /** A user's request begins only when no other of the user's is in flight. */
  predicate OneRequestEach(h: Hall, e: HallEvent) {
    e.Look? ==> forall k <- h.calls :: !AdmissionOf(h.calls[k], e.user)
  }

  ghost predicate OneRequestRun(h: Hall, es: seq<HallEvent>, w: Id, cfg: Config)
    decreases es
  {
    es == [] || (OneRequestEach(h, es[0]) && OneRequestRun(HallStep(h, es[0], w, cfg), es[1..], w, cfg))
  }

  ghost predicate AllApart(calls: map<Id, Call>) {
    forall k <- calls, l <- calls, u: UserId ::
      k != l && AdmissionOf(calls[k], u) ==> !AdmissionOf(calls[l], u)
  }

  /** Whoever has a place holds no token, and whoever was granted one does not wait either. */
  ghost predicate CallsBare(calls: map<Id, Call>, room: Room, now: int) {
    forall k <- calls ::
      && (calls[k].Ranked? || calls[k].Decided? ==> !HoldsToken(room, calls[k].user, now))
      && (calls[k].Decided? ==> calls[k].user !in room.queue)
  }

  ghost predicate Solo(h: Hall) {
    AllApart(h.calls) && CallsBare(h.calls, h.room, h.now)
  }

  lemma SoloNeverDoubles(h: Hall, e: HallEvent, cfg: Config)
    requires Solo(h)
    ensures !Doubles(h, e, cfg)
  {
  }

  lemma ApartStep(h: Hall, e: HallEvent, w: Id, cfg: Config)
    requires AllApart(h.calls) && OneRequestEach(h, e)
    ensures AllApart(HallStep(h, e, w, cfg).calls)
  {
    hide Rank, Granted, Validate, Step;
  }

  /** A step for user u leaves the calls of the others as bare as they were. */
  lemma BareOthers(calls: map<Id, Call>, k: Id, u: UserId, room: Room, room2: Room, now: int)
    requires AllApart(calls) && CallsBare(calls, room, now) && k in calls && AdmissionOf(calls[k], u)
    requires forall v: UserId | v != u :: HoldsToken(room2, v, now) ==> HoldsToken(room, v, now)
    requires forall v: UserId | v != u :: v in room2.queue ==> v in room.queue
    ensures CallsBare(calls - {k}, room2, now)
  {
    hide HoldsToken;
    forall l <- calls - {k} | calls[l].Ranked? || calls[l].Decided?
      ensures calls[l].user != u
    {
      assert AdmissionOf(calls[l], calls[l].user);
    }
  }

  lemma BareWith(calls: map<Id, Call>, k: Id, call: Call, room: Room, now: int)
    requires CallsBare(calls - {k}, room, now)
    requires call.Ranked? || call.Decided? ==> !HoldsToken(room, call.user, now)
    requires call.Decided? ==> call.user !in room.queue
    ensures CallsBare(calls[k := call], room, now)
  {
    hide HoldsToken;
    var calls2 := calls[k := call];
    forall l <- calls2
      ensures calls2[l].Ranked? || calls2[l].Decided? ==> !HoldsToken(room, calls2[l].user, now)
      ensures calls2[l].Decided? ==> calls2[l].user !in room.queue
    {
      assert l != k ==> l in calls - {k} && (calls - {k})[l] == calls2[l];
    }
  }

  lemma BareFewer(calls: map<Id, Call>, k: Id, room: Room, room2: Room, now: int, later: int)
    requires CallsBare(calls, room, now)
    requires forall v: UserId :: HoldsToken(room2, v, later) ==> HoldsToken(room, v, now)
    requires room2.queue == room.queue
    ensures CallsBare(calls, room2, later) && CallsBare(calls - {k}, room2, later)
  {
    hide HoldsToken;
  }

  lemma BareQueue(h: Hall, k: Id, cfg: Config)
    requires Solo(h) && k in h.calls && h.calls[k].Looked?
    ensures var h2 := QueueCall(h, cfg, k, h.calls[k]); CallsBare(h2.calls, h2.room, h.now)
  {
    hide Rank, AllApart, CallsBare;
    var h2, u := QueueCall(h, cfg, k, h.calls[k]), h.calls[k].user;
    BareOthers(h.calls, k, u, h.room, h2.room, h.now);
    if k in h2.calls { BareWith(h.calls, k, h2.calls[k], h2.room, h.now); }
  }

  lemma RankedIsBare(calls: map<Id, Call>, k: Id, room: Room, now: int)
    requires CallsBare(calls, room, now) && k in calls && calls[k].Ranked?
    ensures !HoldsToken(room, calls[k].user, now)
  {
  }

  lemma BareDecide(h: Hall, k: Id, cfg: Config)
    requires Solo(h) && k in h.calls && h.calls[k].Ranked?
    ensures var h2 := DecideCall(h, cfg, k, h.calls[k]); CallsBare(h2.calls, h2.room, h.now)
  {
    hide Granted, Trim, AllApart, CallsBare;
    var h2, u := DecideCall(h, cfg, k, h.calls[k]), h.calls[k].user;
    RankedIsBare(h.calls, k, h.room, h.now);
    BareOthers(h.calls, k, u, h.room, h2.room, h.now);
    if k in h2.calls { BareWith(h.calls, k, h2.calls[k], h2.room, h.now); }
  }

  lemma BareConsume(h: Hall, k: Id, q: Request, token: Option<Token>, underLimit: bool, w: Id, cfg: Config)
    requires Solo(h)
    ensures var h2 := HallStep(h, Consume(k, q, token, underLimit), w, cfg); CallsBare(h2.calls, h2.room, h2.now)
  {
    hide AllApart, CallsBare;
    var h2 := HallStep(h, Consume(k, q, token, underLimit), w, cfg);
    BareFewer(h.calls, k, h.room, h2.room, h.now, h.now);
    BareWith(h.calls, k, Consumed(q), h2.room, h.now);
  }

  lemma BareStep(h: Hall, e: HallEvent, w: Id, cfg: Config)
    requires Solo(h) && OneRequestEach(h, e)
    ensures var h2 := HallStep(h, e, w, cfg); CallsBare(h2.calls, h2.room, h2.now)
  {
    hide AllApart, CallsBare, QueueCall, DecideCall, Step, Validate;
    BareFewer(h.calls, if e.Drop? || e.Book? then e.k else 0, h.room, h.room, h.now, h.now);
    match e
    case Tick(to) => if to >= h.now { BareFewer(h.calls, 0, h.room, h.room, h.now, to); }
    case Look(k, u) =>
      BareFewer(h.calls, k, h.room, h.room, h.now, h.now);
      BareWith(h.calls, k, Looked(u, if w in h.db.workshops then h.db.workshops[w].capacity else 0,
                                  if w in h.db.workshops then h.db.workshops[w].reserved else 0), h.room, h.now);
    case Queue(k) => if k in h.calls && h.calls[k].Looked? { QueueEnds(h, k, cfg); BareQueue(h, k, cfg); }
    case Decide(k) => if k in h.calls && h.calls[k].Ranked? { DecideEnds(h, k, cfg); BareDecide(h, k, cfg); }
    case Issue(k, drawn) =>
      if k in h.calls && h.calls[k].Decided? {
        BareOthers(h.calls, k, h.calls[k].user, h.room, HallStep(h, e, w, cfg).room, h.now);
      }
    case Consume(k, q, token, underLimit) => BareConsume(h, k, q, token, underLimit, w, cfg);
    case _ =>
  }

  lemma {:induction false} SoloRunAgrees(h: Hall, es: seq<HallEvent>, w: Id, cfg: Config)
    requires Solo(h) && OneRequestRun(h, es, w, cfg) && Agrees(h.room, h.now)
    ensures Agrees(HallRun(h, es, w, cfg).room, HallRun(h, es, w, cfg).now)
    decreases es
  {
    hide Agrees, HallStep, Doubles, AllApart, CallsBare, OneRequestEach;
    if es != [] {
      SoloNeverDoubles(h, es[0], cfg);
      StepAgreesUnlessDoubled(h, es[0], w, cfg);
      ApartStep(h, es[0], w, cfg);
      BareStep(h, es[0], w, cfg);
      SoloRunAgrees(HallStep(h, es[0], w, cfg), es[1..], w, cfg);
    }
  }

  /**
   * Main result: with one admission request of each user at a time, whatever else overlaps, no user ever
   * holds two live tokens, and no holder waits.
   */
  lemma OneTokenPerUser(db: Db, now: int, es: seq<HallEvent>, w: Id, cfg: Config, t: Token, s: Token)
    requires OneRequestRun(Opening(db, now), es, w, cfg)
    requires var h := HallRun(Opening(db, now), es, w, cfg); t in Live(h.room, h.now) && s in Live(h.room, h.now)
    ensures var h := HallRun(Opening(db, now), es, w, cfg);
      && t in h.room.payloads && s in h.room.payloads && h.room.payloads[t].user !in h.room.queue
      && (h.room.payloads[t].user == h.room.payloads[s].user ==> t == s)
  {
    VacantAgrees(now);
    hide HallRun, OneRequestRun;
    SoloRunAgrees(Opening(db, now), es, w, cfg);
    var h := HallRun(Opening(db, now), es, w, cfg);
    OneLiveToken(h.room, h.now, t, s);
  }

  // ---- a user with two requests ----

  /** Nothing but the polls has happened in the room, and the user may poll again. */
  ghost predicate Fresh(h: Hall, u: UserId) {
    h.db == ONE_SEAT && h.room.(polls := map[]) == VACANT && !Throttled(h.room.polls, u, h.now)
  }

  lemma AloneIsFirst(u: UserId, at: int)
    ensures Rank(map[u := at], u) == 0
  {
    assert AheadOf(map[u := at], u) == {};
  }

  lemma FreshLooks(h: Hall, k: Id, u: UserId, cfg: Config)
    requires Fresh(h, u) && k !in h.calls
    ensures HallStep(HallStep(h, Look(k, u), 1, cfg), Queue(k), 1, cfg)
         == h.(room := VACANT.(queue := map[u := h.now], polls := h.room.polls[u := h.now + cfg.pollSeconds * 1000]),
               calls := h.calls[k := Ranked(u, 1, 0, 0)])
  {
    AloneIsFirst(u, h.now);
    hide Rank;
    var h1 := HallStep(h, Look(k, u), 1, cfg);
    assert h1.calls[k] == Looked(u, 1, 0);
    assert Joined(h1.room, u, h.now) == map[u := h.now];
    assert h1.calls[k := Ranked(u, 1, 0, 0)] == h.calls[k := Ranked(u, 1, 0, 0)];
  }

  /** Each such request is granted the one seat again. */
  lemma FreshIsGranted(h: Hall, k: Id, u: UserId, cfg: Config)
    requires Fresh(h, u) && k !in h.calls
    ensures HallStep(HallStep(HallStep(h, Look(k, u), 1, cfg), Queue(k), 1, cfg), Decide(k), 1, cfg)
         == h.(room := h.room.(polls := h.room.polls[u := h.now + cfg.pollSeconds * 1000]),
               calls := h.calls[k := Decided(u)])
  {
    FreshLooks(h, k, u, cfg);
    hide QueueCall, Rank;
    var h2 := HallStep(HallStep(h, Look(k, u), 1, cfg), Queue(k), 1, cfg);
    assert Live(h2.room, h.now) == {} && Trim(h2.room.active, h.now) == map[];
    assert h2.room.queue - {u} == map[];
    assert h2.calls[k := Decided(u)] == h.calls[k := Decided(u)];
  }

  /** The user asks, asks again as soon as the poll throttle allows it, and then both tokens are written. */
  function TwoRequests(u: UserId, cfg: Config): seq<HallEvent> {
    [Look(0, u), Queue(0), Decide(0), HallEvent.Tick(cfg.pollSeconds * 1000), Look(1, u), Queue(1), Decide(1),
     HallEvent.Issue(0, 0), HallEvent.Issue(1, 1)]
  }

  lemma RunCons(h: Hall, e: HallEvent, es: seq<HallEvent>, w: Id, cfg: Config)
    ensures HallRun(h, [e] + es, w, cfg) == HallRun(HallStep(h, e, w, cfg), es, w, cfg)
  {
    hide HallStep;
    assert ([e] + es)[1..] == es;
  }

  lemma TickTo(h: Hall, to: int, cfg: Config)
    requires to >= h.now
    ensures HallStep(h, HallEvent.Tick(to), 1, cfg) == h.(now := to)
  {
  }

  lemma BothDecided(u: UserId, cfg: Config)
    ensures var tail := [HallEvent.Issue(0, 0)] + [HallEvent.Issue(1, 1)];
      exists h :: HallRun(Opening(ONE_SEAT, 0), TwoRequests(u, cfg), 1, cfg) == HallRun(h, tail, 1, cfg)
        && h.db == ONE_SEAT && h.room.(polls := map[]) == VACANT
        && h.calls == map[0 := Decided(u), 1 := Decided(u)]
  {
    hide HallRun, HallStep;
    var tail := [HallEvent.Issue(0, 0)] + [HallEvent.Issue(1, 1)];
    var tick := HallEvent.Tick(cfg.pollSeconds * 1000);
    var t6 := [Decide(1)] + tail;
    var t5 := [Queue(1)] + t6;
    var t4 := [Look(1, u)] + t5;
    var t3 := [tick] + t4;
    var t2 := [Decide(0)] + t3;
    var t1 := [Queue(0)] + t2;
    assert TwoRequests(u, cfg) == [Look(0, u)] + t1;
    var h0 := Opening(ONE_SEAT, 0);
    var h1 := HallStep(h0, Look(0, u), 1, cfg);
    var h2 := HallStep(h1, Queue(0), 1, cfg);
    var h3 := HallStep(h2, Decide(0), 1, cfg);
    var h4 := HallStep(h3, tick, 1, cfg);
    var h5 := HallStep(h4, Look(1, u), 1, cfg);
    var h6 := HallStep(h5, Queue(1), 1, cfg);
    var h7 := HallStep(h6, Decide(1), 1, cfg);
    RunCons(h0, Look(0, u), t1, 1, cfg);
    RunCons(h1, Queue(0), t2, 1, cfg);
    RunCons(h2, Decide(0), t3, 1, cfg);
    RunCons(h3, tick, t4, 1, cfg);
    RunCons(h4, Look(1, u), t5, 1, cfg);
    RunCons(h5, Queue(1), t6, 1, cfg);
    RunCons(h6, Decide(1), tail, 1, cfg);
    FreshIsGranted(h0, 0, u, cfg);
    TickTo(h3, cfg.pollSeconds * 1000, cfg);
    FreshIsGranted(h4, 1, u, cfg);
    assert h7.calls == map[0 := Decided(u), 1 := Decided(u)];
  }

  lemma BothIssued(h: Hall, u: UserId, cfg: Config)
    requires h.room.(polls := map[]) == VACANT && h.calls == map[0 := Decided(u), 1 := Decided(u)]
    requires cfg.tokenTtlSeconds >= 1
    ensures var h2 := HallStep(HallStep(h, HallEvent.Issue(0, 0), 1, cfg), HallEvent.Issue(1, 1), 1, cfg);
      && Live(h2.room, h2.now) == {0, 1} && h2.calls == map[]
      && h2.room.payloads.Keys == {0, 1} && h2.room.payloads[0].user == u == h2.room.payloads[1].user
  {
    var h1 := HallStep(h, HallEvent.Issue(0, 0), 1, cfg);
    assert h1.calls == map[1 := Decided(u)];
    var h2 := HallStep(h1, HallEvent.Issue(1, 1), 1, cfg);
    assert h2.room.active == map[0 := h.now + cfg.tokenTtlSeconds * 1000, 1 := h.now + cfg.tokenTtlSeconds * 1000];
  }

  /** Two overlapping requests of one user end with two live tokens of that user. */
  lemma TwoRequestsDouble(u: UserId, cfg: Config)
    requires cfg.tokenTtlSeconds >= 1
    ensures Reachable(ONE_SEAT)
    ensures var h := HallRun(Opening(ONE_SEAT, 0), TwoRequests(u, cfg), 1, cfg);
      && Live(h.room, h.now) == {0, 1} && h.room.payloads.Keys == {0, 1}
      && h.room.payloads[0].user == u == h.room.payloads[1].user
  {
    OneSeatIsReachable();
    BothDecided(u, cfg);
    hide HallRun, HallStep, Live;
    var tail := [HallEvent.Issue(0, 0)] + [HallEvent.Issue(1, 1)];
    var h :| HallRun(Opening(ONE_SEAT, 0), TwoRequests(u, cfg), 1, cfg) == HallRun(h, tail, 1, cfg)
        && h.db == ONE_SEAT && h.room.(polls := map[]) == VACANT
        && h.calls == map[0 := Decided(u), 1 := Decided(u)];
    BothIssued(h, u, cfg);
    RunCons(h, HallEvent.Issue(0, 0), [HallEvent.Issue(1, 1)], 1, cfg);
    OneStep(HallStep(h, HallEvent.Issue(0, 0), 1, cfg), HallEvent.Issue(1, 1), 1, cfg, 0);
  }
}
