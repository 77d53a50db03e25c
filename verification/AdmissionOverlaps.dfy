/** Runs of overlapping admissions that reach the bound of OverlappingAdmission. */
module AdmissionOverlaps {
  import opened Tables
  import opened IdempotentCreate
  import opened RegistrationRuns
  import opened WaitingRooms
  import opened OverlappingAdmission

  const ONE_SEAT := EMPTY.(workshops := map[1 := Workshop(1, 0, 0, 0, false, Published)])

  lemma OneSeatIsReachable()
    ensures Reachable(ONE_SEAT)
  {
    RunOne(EMPTY, WorkshopAdded(1, 1, 0, Published));
    assert Step(EMPTY, WorkshopAdded(1, 1, 0, Published)) == ONE_SEAT;
  }

  /** Users 0 to n - 1 are each admitted, and none of the tokens is written yet. */
  function Deciding(n: nat): seq<HallEvent> {
    if n == 0 then [] else Deciding(n - 1) + [Look(n - 1, n - 1), Queue(n - 1), Decide(n - 1)]
  }

  function Issuing(n: nat): seq<HallEvent> {
    if n == 0 then [] else Issuing(n - 1) + [HallEvent.Issue(n - 1, n - 1)]
  }

  function AllDecided(lo: nat, hi: nat): map<Id, Call> {
    map k: Id | lo <= k < hi :: Decided(k)
  }

  ghost predicate HasDecided(h: Hall, n: nat) {
    && h.db == ONE_SEAT && h.now == 0 && h.calls == AllDecided(0, n)
    && h.room.(polls := map[]) == VACANT
    && forall u <- h.room.polls :: u < n
  }

  lemma NewcomerIsFirst(n: nat)
    ensures Rank(map[n := 0], n) == 0
  {
    assert AheadOf(map[n := 0], n) == {};
  }

  function UpTo(n: nat): set<nat> {
    if n == 0 then {} else UpTo(n - 1) + {n - 1}
  }

  lemma {:induction false} CountUpTo(n: nat)
    ensures |UpTo(n)| == n && forall k: nat :: k in UpTo(n) <==> k < n
    decreases n
  {
    if n > 0 { CountUpTo(n - 1); }
  }

  lemma PledgedDecided(n: nat)
    ensures |Pledged(AllDecided(0, n))| == n
  {
    CountUpTo(n);
    assert Pledged(AllDecided(0, n)) == UpTo(n);
  }

  /** The newcomer has seen the seat free and stands alone in the queue. */
  ghost predicate NextInLine(h: Hall, n: nat) {
    && h.db == ONE_SEAT && h.now == 0
    && h.calls == AllDecided(0, n)[n := Ranked(n, 1, 0, 0)]
    && h.room.(polls := map[], queue := map[]) == VACANT && h.room.queue == map[n := 0]
    && forall u <- h.room.polls :: u < n + 1
  }

  lemma OneMoreQueues(h: Hall, n: nat, cfg: Config)
    requires HasDecided(h, n)
    ensures NextInLine(HallStep(HallStep(h, Look(n, n), 1, cfg), Queue(n), 1, cfg), n)
  {
    NewcomerIsFirst(n);
    hide Rank;
    var h1 := HallStep(h, Look(n, n), 1, cfg);
    assert h1.calls == AllDecided(0, n)[n := Looked(n, 1, 0)];
    assert Joined(h1.room, n, 0) == map[n := 0];
  }

  /** No token is live yet, so the one seat is granted again, over n tokens that are still owed. */
  lemma NextIsGranted(h: Hall, n: nat, cfg: Config)
    requires NextInLine(h, n) && cfg.bufferSeats == 0
    ensures Grants(h, Decide(n), cfg) && 1 in h.db.workshops && Unseen(h, n, 1) == n
  {
    assert Live(h.room, 0) == {};
    assert Pledged(h.calls) == Pledged(AllDecided(0, n));
    PledgedDecided(n);
  }

  lemma NextDecides(h: Hall, n: nat, cfg: Config)
    requires NextInLine(h, n) && Grants(h, Decide(n), cfg)
    ensures HasDecided(HallStep(h, Decide(n), 1, cfg), n + 1)
  {
    hide Budget, Live;
    assert Trim(h.room.active, 0) == map[];
    var h1 := HallStep(h, Decide(n), 1, cfg);
    assert h1.calls == AllDecided(0, n + 1);
    assert h1.room.queue == map[];
  }

  lemma OneMoreDecides(h: Hall, n: nat, cfg: Config)
    requires HasDecided(h, n) && cfg.bufferSeats == 0
    ensures var h2 := HallStep(HallStep(h, Look(n, n), 1, cfg), Queue(n), 1, cfg);
      && Grants(h2, Decide(n), cfg) && n in h2.calls && h2.calls[n].Ranked?
      && 1 in h2.db.workshops && Unseen(h2, n, 1) == n
      && HasDecided(HallStep(h2, Decide(n), 1, cfg), n + 1)
  {
    OneMoreQueues(h, n, cfg);
    hide HallStep, Grants, HasDecided, AllDecided, Unseen;
    var h2 := HallStep(HallStep(h, Look(n, n), 1, cfg), Queue(n), 1, cfg);
    NextIsGranted(h2, n, cfg);
    NextDecides(h2, n, cfg);
  }

  lemma NobodyDecided(cfg: Config, m: nat)
    ensures HasDecided(HallRun(Opening(ONE_SEAT, 0), Deciding(0), 1, cfg), 0)
    ensures OverlapsAtMost(Opening(ONE_SEAT, 0), Deciding(0), 1, cfg, m)
  {
    assert AllDecided(0, 0) == map[];
  }

  lemma NotAGrant(h: Hall, n: nat, cfg: Config)
    ensures !Grants(h, Look(n, n), cfg) && !Grants(h, Queue(n), cfg) && !Grants(h, HallEvent.Issue(n, n), cfg)
  {
  }

  lemma ThreeSteps(h: Hall, n: nat, cfg: Config, m: nat)
    ensures var h2 := HallStep(HallStep(h, Look(n, n), 1, cfg), Queue(n), 1, cfg);
      var es := [Look(n, n), Queue(n), Decide(n)];
      && HallRun(h, es, 1, cfg) == HallStep(h2, Decide(n), 1, cfg)
      && (Grants(h2, Decide(n), cfg) && 1 in h2.db.workshops && Unseen(h2, n, 1) <= m
          ==> OverlapsAtMost(h, es, 1, cfg, m))
  {
    var h1 := HallStep(h, Look(n, n), 1, cfg);
    var h2 := HallStep(h1, Queue(n), 1, cfg);
    NotAGrant(h, n, cfg);
    NotAGrant(h1, n, cfg);
    hide HallStep, HallRun, OverlapsAtMost, Unseen, Grants;
    OneStep(h, Look(n, n), 1, cfg, m);
    OneStep(h1, Queue(n), 1, cfg, m);
    OneStep(h2, Decide(n), 1, cfg, m);
    RunSplits(h1, [Queue(n)], [Decide(n)], 1, cfg, m);
    RunSplits(h, [Look(n, n)], [Queue(n)] + [Decide(n)], 1, cfg, m);
    assert [Look(n, n)] + ([Queue(n)] + [Decide(n)]) == [Look(n, n), Queue(n), Decide(n)];
  }

  lemma {:induction false} AllDecide(n: nat, cfg: Config, m: nat)
    requires cfg.bufferSeats == 0 && n <= m + 1
    ensures HasDecided(HallRun(Opening(ONE_SEAT, 0), Deciding(n), 1, cfg), n)
    ensures OverlapsAtMost(Opening(ONE_SEAT, 0), Deciding(n), 1, cfg, m)
    decreases n
  {
    hide HallStep, HallRun, OverlapsAtMost, Unseen, HasDecided, Grants, Opening;
    if n == 0 {
      NobodyDecided(cfg, m);
    } else {
      AllDecide(n - 1, cfg, m);
      var h := HallRun(Opening(ONE_SEAT, 0), Deciding(n - 1), 1, cfg);
      OneMoreDecides(h, n - 1, cfg);
      ThreeSteps(h, n - 1, cfg, m);
      RunSplits(Opening(ONE_SEAT, 0), Deciding(n - 1), [Look(n - 1, n - 1), Queue(n - 1), Decide(n - 1)], 1, cfg, m);
    }
  }

  /** Of m + 1 decided admissions the first n have written their tokens. */
  ghost predicate HasIssued(h: Hall, n: nat, m: nat) {
    && h.db == ONE_SEAT && h.now == 0 && h.calls == AllDecided(n, m + 1)
    && h.room.issued == h.room.active.Keys == UpTo(n)
    && forall t <- h.room.active :: h.room.active[t] > 0
  }

  lemma FirstLeaves(n: nat, hi: nat)
    requires n < hi
    ensures n in AllDecided(n, hi) && AllDecided(n, hi)[n] == Decided(n)
    ensures AllDecided(n, hi) - {n} == AllDecided(n + 1, hi)
  {
  }

  lemma NextToken(n: nat)
    ensures n !in UpTo(n) && UpTo(n) + {n} == UpTo(n + 1)
  {
    CountUpTo(n);
  }

  lemma OneMoreIssues(h: Hall, n: nat, m: nat, cfg: Config)
    requires HasIssued(h, n, m) && n <= m && cfg.tokenTtlSeconds >= 1
    ensures HasIssued(HallStep(h, HallEvent.Issue(n, n), 1, cfg), n + 1, m)
  {
    FirstLeaves(n, m + 1);
    NextToken(n);
    hide AllDecided, UpTo;
    var h1 := HallStep(h, HallEvent.Issue(n, n), 1, cfg);
    assert h1.room.active.Keys == h.room.active.Keys + {n};
  }

  lemma NobodyIssued(h: Hall, m: nat, cfg: Config)
    requires HasDecided(h, m + 1)
    ensures HasIssued(HallRun(h, Issuing(0), 1, cfg), 0, m) && OverlapsAtMost(h, Issuing(0), 1, cfg, m)
  {
  }

  lemma {:induction false} AllIssue(h: Hall, n: nat, m: nat, cfg: Config)
    requires HasDecided(h, m + 1) && n <= m + 1 && cfg.tokenTtlSeconds >= 1
    ensures HasIssued(HallRun(h, Issuing(n), 1, cfg), n, m) && OverlapsAtMost(h, Issuing(n), 1, cfg, m)
    decreases n
  {
    hide HallStep, HallRun, OverlapsAtMost, Unseen, HasDecided, HasIssued, Grants;
    if n == 0 {
      NobodyIssued(h, m, cfg);
    } else {
      AllIssue(h, n - 1, m, cfg);
      var h1 := HallRun(h, Issuing(n - 1), 1, cfg);
      OneMoreIssues(h1, n - 1, m, cfg);
      NotAGrant(h1, n - 1, cfg);
      OneStep(h1, HallEvent.Issue(n - 1, n - 1), 1, cfg, m);
      RunSplits(h, Issuing(n - 1), [HallEvent.Issue(n - 1, n - 1)], 1, cfg, m);
    }
  }

  /**
   * One seat and no buffer: m + 1 admissions that decide before any of them writes its token end with
   * m + 1 live tokens, m over the bound that admissions taken one at a time keep.
   */
  lemma OverlapIsReached(m: nat, cfg: Config)
    requires cfg.bufferSeats == 0 && cfg.tokenTtlSeconds >= 1
    ensures Reachable(ONE_SEAT)
    ensures OverlapsAtMost(Opening(ONE_SEAT, 0), Deciding(m + 1) + Issuing(m + 1), 1, cfg, m)
    ensures var h := HallRun(Opening(ONE_SEAT, 0), Deciding(m + 1) + Issuing(m + 1), 1, cfg);
      && h.db == ONE_SEAT && h.calls == map[]
      && |Live(h.room, h.now)| == m + 1 == h.db.workshops[1].capacity + cfg.bufferSeats + m
  {
    hide HallRun, OverlapsAtMost, HasDecided;
    var start := Opening(ONE_SEAT, 0);
    OneSeatIsReachable();
    AllDecide(m + 1, cfg, m);
    AllIssue(HallRun(start, Deciding(m + 1), 1, cfg), m + 1, m, cfg);
    RunSplits(start, Deciding(m + 1), Issuing(m + 1), 1, cfg, m);
    var h := HallRun(start, Deciding(m + 1) + Issuing(m + 1), 1, cfg);
    assert h.calls == map[];
    CountUpTo(m + 1);
    assert Live(h.room, 0) == UpTo(m + 1);
  }
}
