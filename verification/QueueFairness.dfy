/** Places in the waiting room over whole runs. */
module QueueFairness {
  import opened Tables
  import opened WaitingRooms
  import opened JointAdmission

  /** Everybody who waits joined at time t or before. */
  ghost predicate JoinedBy(queue: map<UserId, int>, t: int) {
    forall x <- queue :: queue[x] <= t
  }

  /** The clock moves on between any two admission requests; last is the time of the one before. */
  ghost predicate LaterArrivals(j: Joint, es: seq<JointEvent>, w: Id, cfg: Config, last: int)
    decreases es
  {
    es == [] ||
    (&& (es[0].Ask? ==> last < j.now)
     && LaterArrivals(JointStep(j, es[0], w, cfg), es[1..], w, cfg, if es[0].Ask? then j.now else last))
  }

  ghost predicate KeepsWaiting(j: Joint, es: seq<JointEvent>, w: Id, cfg: Config, u: UserId)
    decreases es
  {
    u in j.room.queue && (es == [] || KeepsWaiting(JointStep(j, es[0], w, cfg), es[1..], w, cfg, u))
  }

  /** The time of the last admission request of es, or last when there is none. */
  ghost function LastArrival(j: Joint, es: seq<JointEvent>, w: Id, cfg: Config, last: int): int
    decreases es
  {
    if es == [] then last
    else LastArrival(JointStep(j, es[0], w, cfg), es[1..], w, cfg, if es[0].Ask? then j.now else last)
  }

  /** Only admission requests touch the queue, and a newcomer joins with the time of the request. */
  lemma StepQueue(j: Joint, e: JointEvent, w: Id, cfg: Config, last: int)
    requires JoinedBy(j.room.queue, last) && (e.Ask? ==> last < j.now)
    ensures JoinedBy(JointStep(j, e, w, cfg).room.queue, if e.Ask? then j.now else last)
    ensures !e.Ask? ==> JointStep(j, e, w, cfg).room.queue == j.room.queue
  {
    hide Step, Create, Rank, Budget, Trim;
  }

  lemma StepRank(j: Joint, e: JointEvent, w: Id, cfg: Config, last: int, u: UserId)
    requires JoinedBy(j.room.queue, last) && (e.Ask? ==> last < j.now)
    requires u in j.room.queue && u in JointStep(j, e, w, cfg).room.queue
    ensures Rank(JointStep(j, e, w, cfg).room.queue, u) <= Rank(j.room.queue, u)
  {
    hide Step, Create, Rank, RequestAdmission, Validate;
    if e.Ask? && JointStep(j, e, w, cfg) != j {
      var row := j.db.workshops[w];
      RankNeverRises(j.room, cfg, e.user, j.now, row.capacity, row.reserved, e.drawn, u);
    } else {
      StepQueue(j, e, w, cfg, last);
    }
  }

  lemma {:induction false} RankOverRun(j: Joint, es: seq<JointEvent>, w: Id, cfg: Config, last: int, u: UserId)
    requires JoinedBy(j.room.queue, last) && LaterArrivals(j, es, w, cfg, last) && KeepsWaiting(j, es, w, cfg, u)
    ensures u in JointRun(j, es, w, cfg).room.queue
    ensures Rank(JointRun(j, es, w, cfg).room.queue, u) <= Rank(j.room.queue, u)
    decreases es
  {
    hide JointStep, Rank, JoinedBy;
    if es != [] {
      StepQueue(j, es[0], w, cfg, last);
      StepRank(j, es[0], w, cfg, last, u);
      RankOverRun(JointStep(j, es[0], w, cfg), es[1..], w, cfg, if es[0].Ask? then j.now else last, u);
    }
  }

  lemma {:induction false} RunQueue(j: Joint, es: seq<JointEvent>, more: seq<JointEvent>, w: Id, cfg: Config, last: int)
    requires JoinedBy(j.room.queue, last) && LaterArrivals(j, es + more, w, cfg, last)
    ensures var mid, t := JointRun(j, es, w, cfg), LastArrival(j, es, w, cfg, last);
      JoinedBy(mid.room.queue, t) && LaterArrivals(mid, more, w, cfg, t)
    ensures JointRun(j, es + more, w, cfg) == JointRun(JointRun(j, es, w, cfg), more, w, cfg)
    decreases es
  {
    hide JointStep, JoinedBy;
    if es == [] {
      assert es + more == more;
    } else {
      assert (es + more)[1..] == es[1..] + more;
      StepQueue(j, es[0], w, cfg, last);
      RunQueue(JointStep(j, es[0], w, cfg), es[1..], more, w, cfg, if es[0].Ask? then j.now else last);
    }
  }

  /**
   * From an empty waiting room, with a clock that moves on between any two requests: whoever waits at
   * some moment of a run and keeps waiting to its end is then no further back than at that moment,
   * whatever the others, the sweeps and the payments do.
   */
  lemma WaitingOnlyGetsShorter(db: Db, now: int, es: seq<JointEvent>, more: seq<JointEvent>, w: Id, cfg: Config,
                               last: int, u: UserId)
    requires LaterArrivals(Joint(db, VACANT, now), es + more, w, cfg, last)
    requires KeepsWaiting(JointRun(Joint(db, VACANT, now), es, w, cfg), more, w, cfg, u)
    ensures var mid := JointRun(Joint(db, VACANT, now), es, w, cfg);
      var end := JointRun(Joint(db, VACANT, now), es + more, w, cfg);
      && u in mid.room.queue && u in end.room.queue
      && Rank(end.room.queue, u) <= Rank(mid.room.queue, u)
  {
    hide JointRun, Rank, LaterArrivals;
    var start := Joint(db, VACANT, now);
    RunQueue(start, es, more, w, cfg, last);
    RankOverRun(JointRun(start, es, w, cfg), more, w, cfg, LastArrival(start, es, w, cfg, last), u);
  }
}
