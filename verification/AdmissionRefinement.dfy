/** Requests that nothing interrupts: the steps of OverlappingAdmission make up those of JointAdmission. */
module AdmissionRefinement {
  import opened Wrappers
  import opened Tables
  import opened RegistrationRuns
  import opened IdempotentCreate
  import opened WaitingRooms
  import opened JointAdmission
  import opened OverlappingAdmission

  function Idle(j: Joint): Hall {
    Hall(j.db, j.room, j.now, map[])
  }

  // ---- an admission request ----

  function Admission(u: UserId, drawn: Token): seq<HallEvent> {
    [Look(0, u)] + ([Queue(0)] + ([Decide(0)] + [HallEvent.Issue(0, drawn)]))
  }

  lemma NeverGrants(h: Hall, e: HallEvent, cfg: Config)
    requires !e.Decide?
    ensures !Grants(h, e, cfg)
  {
  }

  lemma FourSteps(h: Hall, u: UserId, drawn: Token, w: Id, cfg: Config)
    ensures var h1 := HallStep(h, Look(0, u), w, cfg);
      var h2 := HallStep(h1, Queue(0), w, cfg);
      var h3 := HallStep(h2, Decide(0), w, cfg);
      && HallRun(h, Admission(u, drawn), w, cfg) == HallStep(h3, HallEvent.Issue(0, drawn), w, cfg)
      && ((w in h2.db.workshops && Grants(h2, Decide(0), cfg) ==> Unseen(h2, 0, w) <= 0)
          ==> OverlapsAtMost(h, Admission(u, drawn), w, cfg, 0))
  {
    hide HallStep, Grants, Unseen, OverlapsAtMost, HallRun;
    var h1 := HallStep(h, Look(0, u), w, cfg);
    var h2 := HallStep(h1, Queue(0), w, cfg);
    var h3 := HallStep(h2, Decide(0), w, cfg);
    NeverGrants(h, Look(0, u), cfg);
    NeverGrants(h1, Queue(0), cfg);
    NeverGrants(h3, HallEvent.Issue(0, drawn), cfg);
    OneStep(h, Look(0, u), w, cfg, 0);
    OneStep(h1, Queue(0), w, cfg, 0);
    OneStep(h2, Decide(0), w, cfg, 0);
    OneStep(h3, HallEvent.Issue(0, drawn), w, cfg, 0);
    RunSplits(h2, [Decide(0)], [HallEvent.Issue(0, drawn)], w, cfg, 0);
    RunSplits(h1, [Queue(0)], [Decide(0)] + [HallEvent.Issue(0, drawn)], w, cfg, 0);
    RunSplits(h, [Look(0, u)], [Queue(0)] + ([Decide(0)] + [HallEvent.Issue(0, drawn)]), w, cfg, 0);
  }

  /** The call has its place in the queue and nothing else is in flight. */
  ghost predicate InPlace(h: Hall, u: UserId, capacity: int, reserved: int, joined: map<UserId, int>) {
    && u in joined && h.room.queue == joined
    && h.calls == map[0 := Ranked(u, capacity, reserved, Rank(joined, u))]
  }

  function Polled(h: Hall, u: UserId, cfg: Config): Room {
    h.room.(polls := h.room.polls[u := h.now + cfg.pollSeconds * 1000])
  }

  /** requestAdmission answers before it comes to the queue. */
  predicate EndsEarly(h: Hall, u: UserId, w: Id)
    requires w in h.db.workshops
  {
    || Throttled(h.room.polls, u, h.now) || h.db.workshops[w].reserved >= h.db.workshops[w].capacity
    || HoldsToken(h.room, u, h.now)
  }

  lemma QueueStep(h: Hall, u: UserId, w: Id, cfg: Config)
    requires h.calls == map[] && w in h.db.workshops && h.db.workshops[w].status == Published
    ensures var row := h.db.workshops[w];
      var h2 := HallStep(HallStep(h, Look(0, u), w, cfg), Queue(0), w, cfg);
      var joined := Joined(Polled(h, u, cfg), u, h.now);
      if EndsEarly(h, u, w)
      then h2 == h.(room := if Throttled(h.room.polls, u, h.now) then h.room else Polled(h, u, cfg))
      else h2 == h.(room := Polled(h, u, cfg).(queue := joined), calls := h2.calls)
           && InPlace(h2, u, row.capacity, row.reserved, joined)
  {
    hide Rank;
    var row := h.db.workshops[w];
    var h1 := HallStep(h, Look(0, u), w, cfg);
    assert h1.calls == map[0 := Looked(u, row.capacity, row.reserved)];
    assert h1.calls - {0} == map[];
  }

  lemma EndedStep(h: Hall, drawn: Token, w: Id, cfg: Config)
    requires h.calls == map[]
    ensures HallStep(HallStep(h, Decide(0), w, cfg), HallEvent.Issue(0, drawn), w, cfg) == h
    ensures !Grants(h, Decide(0), cfg)
  {
  }

  lemma RequestByParts(h: Hall, u: UserId, drawn: Token, w: Id, cfg: Config)
    requires w in h.db.workshops
    ensures var row := h.db.workshops[w];
      RequestAdmission(h.room, cfg, u, h.now, row.capacity, row.reserved, drawn).0
        == if EndsEarly(h, u, w) then (if Throttled(h.room.polls, u, h.now) then h.room else Polled(h, u, cfg))
           else QueueUp(Polled(h, u, cfg), cfg, u, h.now, row.capacity, row.reserved, drawn).0
  {
    hide QueueUp;
  }

  lemma CountStep(h: Hall, u: UserId, capacity: int, reserved: int, joined: map<UserId, int>, w: Id, cfg: Config)
    requires InPlace(h, u, capacity, reserved, joined)
    ensures var trimmed := Trim(h.room.active, h.now);
      HallStep(h, Decide(0), w, cfg)
        == if Rank(joined, u) < Budget(capacity, reserved, cfg.bufferSeats, |Live(h.room, h.now)|)
           then h.(room := h.room.(active := trimmed, queue := joined - {u}), calls := map[0 := Decided(u)])
           else h.(room := h.room.(active := trimmed), calls := map[])
  {
    hide Rank, Budget, Live, Trim;
    assert h.calls - {0} == map[];
    assert h.calls[0 := Decided(u)] == map[0 := Decided(u)];
  }

  lemma WriteStep(h: Hall, u: UserId, drawn: Token, w: Id, cfg: Config)
    requires drawn !in h.room.issued
    ensures h.calls == map[0 := Decided(u)] ==>
      HallStep(h, HallEvent.Issue(0, drawn), w, cfg)
        == h.(room := Hand(h.room, u, drawn, h.now + cfg.tokenTtlSeconds * 1000), calls := map[])
    ensures h.calls == map[] ==> HallStep(h, HallEvent.Issue(0, drawn), w, cfg) == h
  {
    hide Hand;
    assert map[0 := Decided(u)] - {0} == map[];
  }

  lemma NothingPledged(h: Hall, u: UserId, joined: map<UserId, int>, w: Id)
    requires w in h.db.workshops
    requires InPlace(h, u, h.db.workshops[w].capacity, h.db.workshops[w].reserved, joined)
    ensures Unseen(h, 0, w) == 0
  {
    hide Rank;
    assert Pledged(h.calls) == {};
  }

  /** Counting and writing the token without interruption is the queue step of the whole request. */
  lemma DecideStep(h: Hall, polled: Room, u: UserId, drawn: Token, w: Id, cfg: Config)
    requires w in h.db.workshops && drawn !in polled.issued
    requires h.room == polled.(queue := Joined(polled, u, h.now))
    requires InPlace(h, u, h.db.workshops[w].capacity, h.db.workshops[w].reserved, Joined(polled, u, h.now))
    ensures var row := h.db.workshops[w];
      HallStep(HallStep(h, Decide(0), w, cfg), HallEvent.Issue(0, drawn), w, cfg)
        == h.(room := QueueUp(polled, cfg, u, h.now, row.capacity, row.reserved, drawn).0, calls := map[])
    ensures Unseen(h, 0, w) <= 0
  {
    hide Rank, Budget, Live, Trim, QueueUp, HallStep, Joined, Unseen;
    var row := h.db.workshops[w];
    NothingPledged(h, u, Joined(polled, u, h.now), w);
    QueueUpStepwise(polled, cfg, u, h.now, row.capacity, row.reserved, drawn);
    LiveIsActive(polled, h.room, h.now);
    CountStep(h, u, row.capacity, row.reserved, Joined(polled, u, h.now), w, cfg);
    WriteStep(HallStep(h, Decide(0), w, cfg), u, drawn, w, cfg);
  }

  /** Look, Queue, Decide and Issue in a row are requestAdmission, over nothing unseen. */
  lemma AdmissionIsRequest(h: Hall, u: UserId, drawn: Token, w: Id, cfg: Config)
    requires h.calls == map[] && w in h.db.workshops && h.db.workshops[w].status == Published
    requires drawn !in h.room.issued
    ensures var row := h.db.workshops[w];
      HallRun(h, Admission(u, drawn), w, cfg)
        == h.(room := RequestAdmission(h.room, cfg, u, h.now, row.capacity, row.reserved, drawn).0)
    ensures OverlapsAtMost(h, Admission(u, drawn), w, cfg, 0)
  {
    hide HallRun, HallStep, OverlapsAtMost, QueueUp, Joined, Grants, Unseen, EndsEarly, Throttled, InPlace,
         RequestAdmission;
    FourSteps(h, u, drawn, w, cfg);
    QueueStep(h, u, w, cfg);
    RequestByParts(h, u, drawn, w, cfg);
    var h2 := HallStep(HallStep(h, Look(0, u), w, cfg), Queue(0), w, cfg);
    if EndsEarly(h, u, w) {
      EndedStep(h2, drawn, w, cfg);
    } else {
      DecideStep(h2, Polled(h, u, cfg), u, drawn, w, cfg);
    }
  }

  // ---- a token-backed create ----

  /** The create's transactions: its reservation is booked, the others are anybody's. */
  function Lifted(es: seq<Event>): seq<HallEvent> {
    if es == [] then []
    else [if es[0].Reservation? then Book(0) else HallEvent.Elsewhere(es[0])] + Lifted(es[1..])
  }

  lemma {:induction false} LiftedRun(h: Hall, es: seq<Event>, q: Request, w: Id, cfg: Config)
    requires h.calls == map[0 := Consumed(q)] && CreateEvents(es, q)
    ensures var end := HallRun(h, Lifted(es), w, cfg);
      && end.(calls := map[]) == h.(db := Run(h.db, es), calls := map[])
      && end.calls - {0} == map[]
    ensures OverlapsAtMost(h, Lifted(es), w, cfg, 0)
    decreases es
  {
    hide Step, Grants, Unseen;
    if es != [] {
      var e := if es[0].Reservation? then Book(0) else HallEvent.Elsewhere(es[0]);
      assert Lifted(es)[0] == e && Lifted(es)[1..] == Lifted(es[1..]);
      NeverGrants(h, e, cfg);
      if es[0].Reservation? {
        assert es[1..] == [];
      } else {
        LiftedRun(HallStep(h, e, w, cfg), es[1..], q, w, cfg);
      }
    }
  }

  /** Consume, the create's transactions and the end of the call in a row are the token-backed create. */
  lemma CreateIsHallRun(h: Hall, q: Request, token: Option<Token>, underLimit: bool, w: Id, cfg: Config)
    returns (es: seq<HallEvent>)
    requires h.calls == map[] && q.workshop == w
    ensures var j2 := JointStep(Joint(h.db, h.room, h.now), Register(q, token, underLimit), w, cfg);
      HallRun(h, es, w, cfg) == Idle(j2)
    ensures OverlapsAtMost(h, es, w, cfg, 0)
  {
    hide HallRun, OverlapsAtMost, Create, Run, Lifted, Validate, Grants, Unseen, CreateEvents, Pledged;
    var consume := Consume(0, q, token, underLimit);
    var h1 := HallStep(h, consume, w, cfg);
    NeverGrants(h, consume, cfg);
    OneStep(h, consume, w, cfg, 0);
    if Validate(h.room, cfg, q.user, token, h.now, underLimit).1 == Accepted {
      var inner := CreateIsRun(h.db, q);
      LiftedRun(h1, inner, q, w, cfg);
      var h2 := HallRun(h1, Lifted(inner), w, cfg);
      NeverGrants(h2, Drop(0), cfg);
      OneStep(h2, Drop(0), w, cfg, 0);
      RunSplits(h1, Lifted(inner), [Drop(0)], w, cfg, 0);
      RunSplits(h, [consume], Lifted(inner) + [Drop(0)], w, cfg, 0);
      es := [consume] + (Lifted(inner) + [Drop(0)]);
    } else {
      es := [consume];
    }
  }

  // ---- whole runs ----

  lemma NoSteps(h: Hall, w: Id, cfg: Config)
    ensures HallRun(h, [], w, cfg) == h && OverlapsAtMost(h, [], w, cfg, 0)
  {
  }

  lemma StepIsHallRun(j: Joint, e: JointEvent, w: Id, cfg: Config) returns (es: seq<HallEvent>)
    ensures HallRun(Idle(j), es, w, cfg) == Idle(JointStep(j, e, w, cfg))
    ensures OverlapsAtMost(Idle(j), es, w, cfg, 0)
  {
    hide HallRun, OverlapsAtMost, RequestAdmission, Validate, Create, Step, Grants, Unseen;
    NoSteps(Idle(j), w, cfg);
    es := [];
    match e
    case Tick(to) =>
      es := [HallEvent.Tick(to)];
      NeverGrants(Idle(j), HallEvent.Tick(to), cfg);
      OneStep(Idle(j), HallEvent.Tick(to), w, cfg, 0);
    case Elsewhere(x) =>
      es := [HallEvent.Elsewhere(x)];
      NeverGrants(Idle(j), HallEvent.Elsewhere(x), cfg);
      OneStep(Idle(j), HallEvent.Elsewhere(x), w, cfg, 0);
    case Ask(u, drawn) =>
      if w in j.db.workshops && j.db.workshops[w].status == Published && drawn !in j.room.issued {
        es := Admission(u, drawn);
        AdmissionIsRequest(Idle(j), u, drawn, w, cfg);
      }
    case Register(q, token, underLimit) =>
      if q.workshop == w { es := CreateIsHallRun(Idle(j), q, token, underLimit, w, cfg); }
  }

  /**
   * Main result: every run of whole requests is a run of their steps, none of whose admissions is granted
   * over anything it has not seen. So OverlapBound with m = 0 is about at least those runs.
   */
  lemma {:induction false} RunIsHallRun(j: Joint, es: seq<JointEvent>, w: Id, cfg: Config) returns (fs: seq<HallEvent>)
    ensures HallRun(Idle(j), fs, w, cfg) == Idle(JointRun(j, es, w, cfg))
    ensures OverlapsAtMost(Idle(j), fs, w, cfg, 0)
    decreases es
  {
    hide HallRun, OverlapsAtMost, JointStep;
    if es == [] {
      fs := [];
      NoSteps(Idle(j), w, cfg);
    } else {
      var first := StepIsHallRun(j, es[0], w, cfg);
      var rest := RunIsHallRun(JointStep(j, es[0], w, cfg), es[1..], w, cfg);
      RunSplits(Idle(j), first, rest, w, cfg, 0);
      fs := first + rest;
    }
  }

  /** The bound over whole requests once more, as the case of OverlapBound without overlap. */
  lemma WholeRequestsFit(db: Db, es: seq<JointEvent>, w: Id, cfg: Config, now: int)
    requires Reachable(db) && w in db.workshops
    ensures var j := JointRun(Joint(db, VACANT, now), es, w, cfg);
      && w in j.db.workshops
      && |Live(j.room, j.now)| + j.db.workshops[w].reserved <= j.db.workshops[w].capacity + cfg.bufferSeats
  {
    hide JointRun, HallRun, OverlapsAtMost, Live;
    var fs := RunIsHallRun(Joint(db, VACANT, now), es, w, cfg);
    OverlapBound(db, fs, w, cfg, now, 0);
  }
}
