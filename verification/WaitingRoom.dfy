/** The peak admission waiting room of one workshop: a sorted-set queue and tokens that expire. */
module WaitingRooms {
  import opened Wrappers
  import opened Sets

  type UserId = nat
  type Token = nat

  datatype Config = Config(tokenTtlSeconds: nat, bufferSeats: nat, pollSeconds: nat, writeSeconds: nat)

  datatype Grant = Grant(token: Token, expiresAt: int)
  datatype Payload = Payload(user: UserId, expiresAt: int)

  /**
   * The Redis keys of the workshop. A key set with EX is live while its expiry lies ahead. queue
   * and active are sorted sets (member to score). issued holds every token drawn so far.
   */
  datatype Room = Room(queue: map<UserId, int>,
                       userTokens: map<UserId, Grant>,
                       payloads: map<Token, Payload>,
                       active: map<Token, int>,
                       polls: map<UserId, int>,
                       writes: map<UserId, int>,
                       issued: set<Token>)

  const VACANT := Room(map[], map[], map[], map[], map[], map[], {})

  datatype Reply = NotFound | RateLimited | Full | Admitted(token: Token) | Waiting(position: nat)

  datatype Verdict = TokenRequired | TooFast | Busy | TokenInvalid | Accepted

  /** Redis orders a sorted set by score, then by member. */
  predicate Ahead(queue: map<UserId, int>, v: UserId, u: UserId)
    requires v in queue && u in queue
  {
    queue[v] < queue[u] || (queue[v] == queue[u] && v < u)
  }

  function AheadOf(queue: map<UserId, int>, u: UserId): set<UserId>
    requires u in queue
  {
    set v | v in queue && Ahead(queue, v, u)
  }

  /** ZRANK. */
  function Rank(queue: map<UserId, int>, u: UserId): nat
    requires u in queue
  {
    |AheadOf(queue, u)|
  }

  /** ZREMRANGEBYSCORE -inf now. */
  function Trim(active: map<Token, int>, now: int): map<Token, int> {
    map t | t in active && active[t] > now :: active[t]
  }

  function Live(room: Room, now: int): set<Token> {
    set t | t in room.active && room.active[t] > now
  }

  /** SET NX EX fails on a live key. */
  predicate Throttled(keys: map<UserId, int>, u: UserId, now: int) {
    u in keys && keys[u] > now
  }

  predicate HoldsToken(room: Room, u: UserId, now: int) {
    u in room.userTokens && room.userTokens[u].expiresAt > now
  }

  function Max0(x: int): nat {
    if x > 0 then x else 0
  }

  /** admitBudget, from the seats of the workshop snapshot and the live tokens. */
  function Budget(capacity: int, reserved: int, buffer: nat, live: nat): nat {
    Max0(Max0(capacity - reserved) + buffer - live)
  }

  function Joined(room: Room, u: UserId, now: int): map<UserId, int> {
    if u in room.queue then room.queue else room.queue[u := now]
  }

  /** Leave the queue and get a token. */
  function Issue(room: Room, u: UserId, drawn: Token, now: int, expiresAt: int): Room {
    room.(queue := room.queue - {u},
          userTokens := room.userTokens[u := Grant(drawn, expiresAt)],
          payloads := room.payloads[drawn := Payload(u, expiresAt)],
          active := Trim(room.active, now)[drawn := expiresAt],
          issued := room.issued + {drawn})
  }

  /** The queue step of requestAdmission: join if needed, then admit or keep waiting. */
  function QueueUp(room: Room, cfg: Config, u: UserId, now: int, capacity: int, reserved: int,
                   drawn: Token): (Room, Reply)
  {
    var queue := Joined(room, u, now);
    var active := Trim(room.active, now);
    if Rank(queue, u) < Budget(capacity, reserved, cfg.bufferSeats, |active.Keys|)
    then (Issue(room.(queue := queue), u, drawn, now, now + cfg.tokenTtlSeconds * 1000), Admitted(drawn))
    else (room.(queue := queue, active := active), Waiting(Rank(queue, u) + 1))
  }

  /** requestAdmission on a published workshop under peak control; drawn is the UUID it would use. */
  function RequestAdmission(room: Room, cfg: Config, u: UserId, now: int, capacity: int, reserved: int,
                            drawn: Token): (Room, Reply)
  {
    if Throttled(room.polls, u, now) then (room, RateLimited) else
    var polled := room.(polls := room.polls[u := now + cfg.pollSeconds * 1000]);
    if reserved >= capacity then (polled, Full)
    else if HoldsToken(room, u, now) then (polled, Admitted(room.userTokens[u].token))
    else QueueUp(polled, cfg, u, now, capacity, reserved, drawn)
  }

  /** validateRegistrationAttempt; underLimit is the answer of the global write limiter. */
  function Validate(room: Room, cfg: Config, u: UserId, token: Option<Token>, now: int,
                    underLimit: bool): (Room, Verdict)
  {
    if token == None then (room, TokenRequired)
    else if Throttled(room.writes, u, now) then (room, TooFast)
    else
      var noted := room.(writes := room.writes[u := now + cfg.writeSeconds * 1000]);
      var t := token.value;
      if !underLimit then (noted, Busy)
      else if t !in room.payloads || room.payloads[t].expiresAt <= now || room.payloads[t].user != u
      then (noted, TokenInvalid)
      else
        (noted.(payloads := room.payloads - {t}, userTokens := room.userTokens - {u}, active := room.active - {t}),
         Accepted)
  }

  // ---- agreement of the keys ----

  /** The active set, the token payloads and the users' token keys agree on every live token. */
  ghost predicate TokensAgree(userTokens: map<UserId, Grant>, payloads: map<Token, Payload>, active: map<Token, int>,
                              now: int)
  {
    && (forall t | t in active && active[t] > now ::
          && t in payloads && payloads[t].expiresAt == active[t]
          && payloads[t].user in userTokens && userTokens[payloads[t].user] == Grant(t, active[t]))
    && (forall t | t in payloads && payloads[t].expiresAt > now :: t in active && active[t] == payloads[t].expiresAt)
    && (forall u | u in userTokens && userTokens[u].expiresAt > now ::
          userTokens[u].token in payloads && payloads[userTokens[u].token] == Payload(u, userTokens[u].expiresAt))
  }

  ghost predicate NoHolderWaits(queue: map<UserId, int>, userTokens: map<UserId, Grant>, now: int) {
    forall u | u in queue && u in userTokens :: userTokens[u].expiresAt <= now
  }

  /** Every token on record was drawn here. */
  ghost predicate AllDrawn(userTokens: map<UserId, Grant>, payloads: map<Token, Payload>, active: map<Token, int>,
                           issued: set<Token>)
  {
    && payloads.Keys <= issued && active.Keys <= issued
    && forall u | u in userTokens :: userTokens[u].token in issued
  }

  ghost predicate Agrees(room: Room, now: int) {
    && TokensAgree(room.userTokens, room.payloads, room.active, now)
    && NoHolderWaits(room.queue, room.userTokens, now)
    && AllDrawn(room.userTokens, room.payloads, room.active, room.issued)
  }

  lemma TimeKeeps(room: Room, now: int, later: int)
    requires Agrees(room, now) && now <= later
    ensures Agrees(room, later)
    ensures Live(room, later) <= Live(room, now)
  {
  }

  lemma TrimKeeps(userTokens: map<UserId, Grant>, payloads: map<Token, Payload>, active: map<Token, int>, now: int)
    requires TokensAgree(userTokens, payloads, active, now)
    ensures TokensAgree(userTokens, payloads, Trim(active, now), now)
  {
  }

  lemma IssueTokens(userTokens: map<UserId, Grant>, payloads: map<Token, Payload>, active: map<Token, int>, now: int,
                    u: UserId, drawn: Token, expiresAt: int)
    requires TokensAgree(userTokens, payloads, active, now)
    requires u in userTokens ==> userTokens[u].expiresAt <= now
    requires drawn !in payloads && drawn !in active && forall v | v in userTokens :: userTokens[v].token != drawn
    ensures TokensAgree(userTokens[u := Grant(drawn, expiresAt)], payloads[drawn := Payload(u, expiresAt)],
                        active[drawn := expiresAt], now)
  {
  }

  lemma IssueKeeps(room: Room, u: UserId, drawn: Token, now: int, expiresAt: int)
    requires TokensAgree(room.userTokens, room.payloads, room.active, now)
    requires NoHolderWaits(room.queue - {u}, room.userTokens, now)
    requires AllDrawn(room.userTokens, room.payloads, room.active, room.issued)
    requires !HoldsToken(room, u, now) && drawn !in room.issued
    ensures Agrees(Issue(room, u, drawn, now, expiresAt), now)
  {
    hide TokensAgree;
    TrimKeeps(room.userTokens, room.payloads, room.active, now);
    IssueTokens(room.userTokens, room.payloads, Trim(room.active, now), now, u, drawn, expiresAt);
  }

  lemma JoinKeeps(room: Room, u: UserId, now: int)
    requires Agrees(room, now) && !HoldsToken(room, u, now)
    ensures NoHolderWaits(Joined(room, u, now), room.userTokens, now)
    ensures NoHolderWaits(Joined(room, u, now) - {u}, room.userTokens, now)
    ensures Agrees(room.(queue := Joined(room, u, now), active := Trim(room.active, now)), now)
  {
    hide TokensAgree;
    TrimKeeps(room.userTokens, room.payloads, room.active, now);
  }

  lemma QueueUpKeeps(room: Room, cfg: Config, u: UserId, now: int, capacity: int, reserved: int, drawn: Token)
    requires Agrees(room, now) && !HoldsToken(room, u, now) && drawn !in room.issued
    ensures Agrees(QueueUp(room, cfg, u, now, capacity, reserved, drawn).0, now)
  {
    hide Rank, Budget, TokensAgree, NoHolderWaits, AllDrawn, Trim, Joined, Issue;
    JoinKeeps(room, u, now);
    IssueKeeps(room.(queue := Joined(room, u, now)), u, drawn, now, now + cfg.tokenTtlSeconds * 1000);
  }

  lemma RequestKeeps(room: Room, cfg: Config, u: UserId, now: int, capacity: int, reserved: int, drawn: Token)
    requires Agrees(room, now) && drawn !in room.issued
    ensures Agrees(RequestAdmission(room, cfg, u, now, capacity, reserved, drawn).0, now)
  {
    hide QueueUp, TokensAgree, NoHolderWaits, AllDrawn;
    var polled := room.(polls := room.polls[u := now + cfg.pollSeconds * 1000]);
    if !HoldsToken(polled, u, now) { QueueUpKeeps(polled, cfg, u, now, capacity, reserved, drawn); }
  }

  lemma SpendTokens(userTokens: map<UserId, Grant>, payloads: map<Token, Payload>, active: map<Token, int>, now: int,
                    u: UserId, t: Token)
    requires TokensAgree(userTokens, payloads, active, now)
    requires t in payloads && payloads[t].expiresAt > now && payloads[t].user == u
    ensures TokensAgree(userTokens - {u}, payloads - {t}, active - {t}, now)
  {
  }

  lemma ValidateKeeps(room: Room, cfg: Config, u: UserId, token: Option<Token>, now: int, underLimit: bool)
    requires Agrees(room, now)
    ensures Agrees(Validate(room, cfg, u, token, now, underLimit).0, now)
  {
    hide TokensAgree;
    if Validate(room, cfg, u, token, now, underLimit).1 == Accepted {
      SpendTokens(room.userTokens, room.payloads, room.active, now, u, token.value);
    }
  }

  /** A user holds at most one live token, and it is the one under the user's key. */
  lemma OneLiveToken(room: Room, now: int, t: Token, s: Token)
    requires Agrees(room, now) && t in Live(room, now) && s in Live(room, now)
    ensures t in room.payloads && s in room.payloads
    ensures room.payloads[t].user == room.payloads[s].user ==> t == s
    ensures room.payloads[t].user !in room.queue
  {
    assert HoldsToken(room, room.payloads[t].user, now);
  }

  // ---- how many live tokens ----

  lemma LiveAfterIssue(room: Room, u: UserId, drawn: Token, now: int, expiresAt: int)
    ensures |Live(Issue(room, u, drawn, now, expiresAt), now)| <= |Trim(room.active, now).Keys| + 1
  {
    var after, trimmed := Live(Issue(room, u, drawn, now, expiresAt), now), Trim(room.active, now).Keys;
    assert after <= trimmed + {drawn};
    CardMono(after, trimmed + {drawn});
  }

  lemma LiveAfterTrim(room: Room, now: int)
    ensures Trim(room.active, now).Keys == Live(room, now)
    ensures Live(room.(active := Trim(room.active, now)), now) == Live(room, now)
  {
  }

  /** The queue step with its parts named: the queue joined, the live tokens counted, the token written. */
  lemma QueueUpStepwise(room: Room, cfg: Config, u: UserId, now: int, capacity: int, reserved: int, drawn: Token)
    ensures var joined, expiresAt := Joined(room, u, now), now + cfg.tokenTtlSeconds * 1000;
      QueueUp(room, cfg, u, now, capacity, reserved, drawn)
        == if Rank(joined, u) < Budget(capacity, reserved, cfg.bufferSeats, |Live(room, now)|)
           then (Room(joined - {u}, room.userTokens[u := Grant(drawn, expiresAt)],
                      room.payloads[drawn := Payload(u, expiresAt)], Trim(room.active, now)[drawn := expiresAt],
                      room.polls, room.writes, room.issued + {drawn}),
                 Admitted(drawn))
           else (room.(queue := joined, active := Trim(room.active, now)), Waiting(Rank(joined, u) + 1))
  {
    LiveAfterTrim(room, now);
    hide Rank, Budget, Live, Trim;
  }

  lemma LiveIsActive(a: Room, b: Room, now: int)
    requires a.active == b.active
    ensures Live(a, now) == Live(b, now)
  {
  }

  /** An admission that issues a token keeps tokens and reserved seats within capacity and buffer. */
  lemma RequestWithinBudget(room: Room, cfg: Config, u: UserId, now: int, capacity: int, reserved: int, drawn: Token)
    requires |Live(room, now)| + reserved <= capacity + cfg.bufferSeats
    ensures |Live(RequestAdmission(room, cfg, u, now, capacity, reserved, drawn).0, now)| + reserved
         <= capacity + cfg.bufferSeats
  {
    hide Rank, Live, Trim, Issue;
    var polled := room.(polls := room.polls[u := now + cfg.pollSeconds * 1000]);
    var joined := polled.(queue := Joined(polled, u, now));
    LiveAfterIssue(joined, u, drawn, now, now + cfg.tokenTtlSeconds * 1000);
    LiveAfterTrim(joined, now);
    LiveIsActive(room, polled, now);
    LiveIsActive(room, joined, now);
  }

  lemma ValidateSpends(room: Room, cfg: Config, u: UserId, token: Option<Token>, now: int, underLimit: bool)
    requires Agrees(room, now)
    ensures var (after, verdict) := Validate(room, cfg, u, token, now, underLimit);
      |Live(after, now)| == |Live(room, now)| - if verdict == Accepted then 1 else 0
  {
    var (after, verdict) := Validate(room, cfg, u, token, now, underLimit);
    if verdict == Accepted {
      assert token.value in Live(room, now);
      assert Live(after, now) == Live(room, now) - {token.value};
    } else {
      assert Live(after, now) == Live(room, now);
    }
  }

  // ---- consumed tokens ----

  /** A token that was drawn and whose payload is gone. */
  predicate Spent(room: Room, t: Token) {
    t in room.issued && t !in room.payloads
  }

  lemma AcceptedIsSpent(room: Room, cfg: Config, u: UserId, t: Token, now: int)
    requires Agrees(room, now) && Validate(room, cfg, u, Some(t), now, true).1 == Accepted
    ensures Spent(Validate(room, cfg, u, Some(t), now, true).0, t)
  {
  }

  lemma SpentAfterRequest(room: Room, cfg: Config, u: UserId, now: int, capacity: int, reserved: int, drawn: Token,
                          t: Token)
    requires Spent(room, t) && drawn !in room.issued
    ensures Spent(RequestAdmission(room, cfg, u, now, capacity, reserved, drawn).0, t)
  {
    hide Rank, Budget;
  }

  lemma SpentAfterAttempt(room: Room, cfg: Config, u: UserId, token: Option<Token>, now: int, underLimit: bool,
                          t: Token)
    requires Spent(room, t)
    ensures Spent(Validate(room, cfg, u, token, now, underLimit).0, t)
    ensures token == Some(t) ==> Validate(room, cfg, u, token, now, underLimit).1 != Accepted
  {
  }

  // ---- fairness ----

  lemma RankMono(a: map<UserId, int>, b: map<UserId, int>, u: UserId)
    requires u in a && u in b && AheadOf(a, u) <= AheadOf(b, u)
    ensures Rank(a, u) <= Rank(b, u)
  {
    assert AheadOf(b, u) == AheadOf(a, u) + (AheadOf(b, u) - AheadOf(a, u));
  }

  /** A user who keeps waiting never loses a place, when arrivals are later than all who wait. */
  lemma RankNeverRises(room: Room, cfg: Config, v: UserId, now: int, capacity: int, reserved: int, drawn: Token,
                       u: UserId)
    requires forall x | x in room.queue :: room.queue[x] < now
    requires u in room.queue && u in RequestAdmission(room, cfg, v, now, capacity, reserved, drawn).0.queue
    ensures Rank(RequestAdmission(room, cfg, v, now, capacity, reserved, drawn).0.queue, u) <= Rank(room.queue, u)
  {
    var after := RequestAdmission(room, cfg, v, now, capacity, reserved, drawn).0.queue;
    hide Budget, Trim, Rank;
    assert AheadOf(after, u) <= AheadOf(room.queue, u);
    RankMono(after, room.queue, u);
  }

  // ---- throttles ----

  /** SET NX EX: passes exactly when no live key is there, and then sets one. */
  function Guard(keys: map<UserId, int>, u: UserId, now: int, seconds: nat): (map<UserId, int>, bool) {
    if Throttled(keys, u, now) then (keys, false) else (keys[u := now + seconds * 1000], true)
  }

  /** One call of a throttled operation. */
  datatype Visit = Visit(user: UserId, now: int)

  /** Which of a series of calls pass. */
  function Passes(keys: map<UserId, int>, visits: seq<Visit>, seconds: nat): (passed: seq<bool>)
    ensures |passed| == |visits|
    decreases visits
  {
    if visits == [] then []
    else
      var guarded := Guard(keys, visits[0].user, visits[0].now, seconds);
      [guarded.1] + Passes(guarded.0, visits[1..], seconds)
  }

  lemma {:induction false} PassesAfterKey(keys: map<UserId, int>, visits: seq<Visit>, seconds: nat, i: nat, u: UserId)
    requires i < |visits| && visits[i].user == u && Passes(keys, visits, seconds)[i] && u in keys
    ensures visits[i].now >= keys[u]
    decreases visits
  {
    if i > 0 {
      var guarded := Guard(keys, visits[0].user, visits[0].now, seconds);
      PassesAfterKey(guarded.0, visits[1..], seconds, i - 1, u);
    }
  }

  /** Of one user's calls, any two that pass are at least the interval apart, whatever is called between. */
  lemma {:induction false} PassesAreSpaced(keys: map<UserId, int>, visits: seq<Visit>, seconds: nat, i: nat, j: nat)
    requires i < j < |visits| && visits[i].user == visits[j].user
    requires Passes(keys, visits, seconds)[i] && Passes(keys, visits, seconds)[j]
    ensures visits[j].now >= visits[i].now + seconds * 1000
    decreases visits
  {
    var guarded := Guard(keys, visits[0].user, visits[0].now, seconds);
    if i == 0 {
      PassesAfterKey(guarded.0, visits[1..], seconds, j - 1, visits[0].user);
    } else {
      PassesAreSpaced(guarded.0, visits[1..], seconds, i - 1, j - 1);
    }
  }

  /** And a call passes whenever no call of the user that passed lies less than the interval back. */
  lemma {:induction false} SpacedCallPasses(keys: map<UserId, int>, visits: seq<Visit>, seconds: nat, j: nat)
    requires j < |visits|
    requires !Throttled(keys, visits[j].user, visits[j].now)
    requires forall i | 0 <= i < j && visits[i].user == visits[j].user && Passes(keys, visits, seconds)[i] ::
               visits[j].now >= visits[i].now + seconds * 1000
    ensures Passes(keys, visits, seconds)[j]
    decreases visits
  {
    if j > 0 {
      var guarded := Guard(keys, visits[0].user, visits[0].now, seconds);
      assert Passes(keys, visits, seconds)[0] == guarded.1;
      assert forall i | 0 <= i < j - 1 :: visits[1..][i] == visits[i + 1]
                && Passes(guarded.0, visits[1..], seconds)[i] == Passes(keys, visits, seconds)[i + 1];
      SpacedCallPasses(guarded.0, visits[1..], seconds, j - 1);
    }
  }

  // ---- who is admitted ----

  /** The users a budget of b would admit. */
  function Admissible(queue: map<UserId, int>, b: nat): set<UserId> {
    set u | u in queue && Rank(queue, u) < b
  }

  /**
   * Who may poll, finds seats and holds no token is admitted exactly when among the first users of the
   * queue, as many as seats and buffer leave beside the live tokens; otherwise the place is told.
   */
  lemma AdmittedExactlyInPrefix(room: Room, cfg: Config, u: UserId, now: int, capacity: int, reserved: int,
                                drawn: Token)
    requires !Throttled(room.polls, u, now)
    requires reserved < capacity && !HoldsToken(room, u, now)
    ensures var (after, reply) := RequestAdmission(room, cfg, u, now, capacity, reserved, drawn);
            var queue, room2 := Joined(room, u, now), capacity - reserved + cfg.bufferSeats - |Live(room, now)|;
            && (reply.Admitted? <==> u in Admissible(queue, Max0(room2)))
            && (reply.Admitted? ==>
                  reply.token == drawn && after.queue == queue - {u} && after.userTokens[u].token == drawn)
            && (!reply.Admitted? ==>
                  && after.queue == queue && reply == Waiting(|AheadOf(queue, u)| + 1)
                  && Live(after, now) == Live(room, now))
  {
    var polled := room.(polls := room.polls[u := now + cfg.pollSeconds * 1000]);
    LiveAfterTrim(polled, now);
    LiveIsActive(polled, room, now);
  }

  /** An attempt is accepted exactly with the one live token its user holds, past both throttles. */
  lemma AcceptedExactly(room: Room, cfg: Config, u: UserId, token: Option<Token>, now: int, underLimit: bool)
    requires Agrees(room, now)
    ensures Validate(room, cfg, u, token, now, underLimit).1 == Accepted <==>
              (token.Some? && underLimit && !Throttled(room.writes, u, now)
               && HoldsToken(room, u, now) && room.userTokens[u].token == token.value)
  {
    if Validate(room, cfg, u, token, now, underLimit).1 == Accepted {
      assert token.value in room.active;
    }
  }

  lemma {:induction false} LastInQueue(queue: map<UserId, int>, s: set<UserId>) returns (m: UserId)
    requires s != {} && s <= queue.Keys
    ensures m in s && forall v | v in s && v != m :: Ahead(queue, v, m)
    decreases s
  {
    var x :| x in s;
    m := x;
    if s != {x} {
      assert s - {x} != {};
      var k := LastInQueue(queue, s - {x});
      if Ahead(queue, x, k) { m := k; }
      forall v | v in s && v != m ensures Ahead(queue, v, m) {
        assert v == x || v == k || Ahead(queue, v, k);
      }
    }
  }

  lemma LastLeaves(queue: map<UserId, int>, m: UserId, u: UserId)
    requires m in queue && u in queue && u != m && Ahead(queue, u, m)
    ensures Rank(queue - {m}, u) == Rank(queue, u)
  {
    assert AheadOf(queue - {m}, u) == AheadOf(queue, u);
  }

  lemma RankOfLast(queue: map<UserId, int>, m: UserId)
    requires m in queue && forall v | v in queue && v != m :: Ahead(queue, v, m)
    ensures Rank(queue, m) == |queue.Keys| - 1
  {
    assert AheadOf(queue, m) == queue.Keys - {m};
  }

  lemma {:induction false} CountAdmissible(queue: map<UserId, int>, b: nat)
    ensures |Admissible(queue, b)| == if b < |queue.Keys| then b else |queue.Keys|
    decreases |queue.Keys|
  {
    hide Rank;
    if queue.Keys == {} {
      assert Admissible(queue, b) == {};
    } else {
      var m := LastInQueue(queue, queue.Keys);
      var rest := queue - {m};
      assert rest.Keys == queue.Keys - {m};
      CountAdmissible(rest, b);
      RankOfLast(queue, m);
      forall u | u in rest { LastLeaves(queue, m, u); }
      assert Admissible(queue, b) == Admissible(rest, b) + if Rank(queue, m) < b then {m} else {};
    }
  }

  /** Those users are the first b of the queue: whoever is ahead of one is among them, and they are min(b, length). */
  lemma AdmissibleIsPrefix(queue: map<UserId, int>, b: nat)
    ensures forall u, v :: v in queue && u in Admissible(queue, b) && Ahead(queue, v, u) ==> v in Admissible(queue, b)
    ensures |Admissible(queue, b)| == if b < |queue.Keys| then b else |queue.Keys|
  {
    forall u, v | v in queue && u in Admissible(queue, b) && Ahead(queue, v, u) ensures v in Admissible(queue, b) {
      assert AheadOf(queue, v) <= AheadOf(queue, u);
      assert AheadOf(queue, u) == AheadOf(queue, v) + (AheadOf(queue, u) - AheadOf(queue, v));
    }
    CountAdmissible(queue, b);
  }
}
