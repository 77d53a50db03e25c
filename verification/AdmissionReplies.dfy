/** What a waiting room answers: the exact condition of every reply and verdict, and what a told token is good for. */
module AdmissionReplies {
  import opened Wrappers
  import opened WaitingRooms

  /** Who joined before u, or at the same moment with a smaller id. */
  function Earlier(queue: map<UserId, int>, u: UserId): set<UserId>
    requires u in queue
  {
    set v | v in queue && (queue[v] < queue[u] || (queue[v] == queue[u] && v < u))
  }

  /** With those before u and the live tokens, seats and buffer are not used up. */
  ghost predicate HasPlace(room: Room, cfg: Config, u: UserId, now: int, capacity: int, reserved: int) {
    var queue := if u in room.queue then room.queue else room.queue[u := now];
    |Earlier(queue, u)| + |Live(room, now)| < capacity - reserved + cfg.bufferSeats
  }

  lemma EarlierAreAhead(queue: map<UserId, int>, u: UserId)
    requires u in queue
    ensures Earlier(queue, u) == AheadOf(queue, u)
  {
  }

  predicate PolledLately(room: Room, u: UserId, now: int) {
    u in room.polls && room.polls[u] > now
  }

  predicate WroteLately(room: Room, u: UserId, now: int) {
    u in room.writes && room.writes[u] > now
  }

  /** u has a live token under its key. */
  predicate Holder(room: Room, u: UserId, now: int) {
    u in room.userTokens && room.userTokens[u].expiresAt > now
  }

  /**
   * The one reply of every room: too soon after the last poll, full, the token a holder has, a new
   * token for who has a place among those on offer, and otherwise the place in the queue.
   */
  lemma ReplyExactly(room: Room, cfg: Config, u: UserId, now: int, capacity: int, reserved: int, drawn: Token)
    ensures var reply := RequestAdmission(room, cfg, u, now, capacity, reserved, drawn).1;
            var free := !PolledLately(room, u, now) && reserved < capacity;
            var queue := if u in room.queue then room.queue else room.queue[u := now];
            && (reply == RateLimited <==> PolledLately(room, u, now))
            && (reply == Full <==> !PolledLately(room, u, now) && reserved >= capacity)
            && (reply.Admitted? <==>
                  free && (Holder(room, u, now) || HasPlace(room, cfg, u, now, capacity, reserved)))
            && (reply.Admitted? ==>
                  reply.token == if Holder(room, u, now) then room.userTokens[u].token else drawn)
            && (reply.Waiting? <==>
                  free && !Holder(room, u, now) && !HasPlace(room, cfg, u, now, capacity, reserved))
            && (reply.Waiting? ==> reply.position == |Earlier(queue, u)| + 1)
            && !reply.NotFound?
  {
    if !Throttled(room.polls, u, now) && reserved < capacity && !HoldsToken(room, u, now) {
      AdmittedExactlyInPrefix(room, cfg, u, now, capacity, reserved, drawn);
      EarlierAreAhead(Joined(room, u, now), u);
    }
    hide QueueUp, AheadOf, Earlier, Live;
  }

  /** What a request changes beside a token it issues: the poll throttle, and the user's place if it waits. */
  lemma RequestLeaves(room: Room, cfg: Config, u: UserId, now: int, capacity: int, reserved: int, drawn: Token)
    ensures var (after, reply) := RequestAdmission(room, cfg, u, now, capacity, reserved, drawn);
            && (after.polls, reply != RateLimited) == Guard(room.polls, u, now, cfg.pollSeconds)
            && after.writes == room.writes
            && (reply == RateLimited ==> after == room)
            && (reply == Full || Holder(room, u, now) ==> after == room.(polls := after.polls))
            && (reply.Waiting? ==>
                  && after.userTokens == room.userTokens && after.payloads == room.payloads
                  && after.issued == room.issued
                  && after.queue == if u in room.queue then room.queue else room.queue[u := now])
            && (forall v | v != u && v in room.queue :: v in after.queue && after.queue[v] == room.queue[v])
  {
    hide Rank, Budget, Trim, AheadOf;
  }

  /** The token told with an admission is on record for the user, to the end of its life. */
  lemma ToldTokenIsOnRecord(room: Room, cfg: Config, u: UserId, now: int, capacity: int, reserved: int, drawn: Token)
    requires Agrees(room, now)
    requires RequestAdmission(room, cfg, u, now, capacity, reserved, drawn).1.Admitted?
    ensures var (after, reply) := RequestAdmission(room, cfg, u, now, capacity, reserved, drawn);
            var expiry := if Holder(room, u, now) then room.userTokens[u].expiresAt
                          else now + cfg.tokenTtlSeconds * 1000;
            && reply.token in after.payloads && after.payloads[reply.token] == Payload(u, expiry)
            && u in after.userTokens && after.userTokens[u] == Grant(reply.token, expiry)
  {
    hide Rank, Budget, Trim, AheadOf;
  }

  /**
   * Main result: whatever token a request tells, new or held, a registration attempt of the user with
   * it is accepted at any later moment before it runs out, when neither write throttle stands against it.
   */
  lemma ToldTokenIsAccepted(room: Room, cfg: Config, u: UserId, now: int, capacity: int, reserved: int, drawn: Token,
                            later: int)
    requires Agrees(room, now)
    requires RequestAdmission(room, cfg, u, now, capacity, reserved, drawn).1.Admitted?
    requires later < if Holder(room, u, now) then room.userTokens[u].expiresAt else now + cfg.tokenTtlSeconds * 1000
    requires !WroteLately(room, u, later)
    ensures var (after, reply) := RequestAdmission(room, cfg, u, now, capacity, reserved, drawn);
      Validate(after, cfg, u, Some(reply.token), later, true).1 == Accepted
  {
    ToldTokenIsOnRecord(room, cfg, u, now, capacity, reserved, drawn);
    RequestLeaves(room, cfg, u, now, capacity, reserved, drawn);
    hide RequestAdmission, Agrees;
  }

  /** The one verdict of every attempt, and what it writes. */
  lemma VerdictExactly(room: Room, cfg: Config, u: UserId, token: Option<Token>, now: int, underLimit: bool)
    ensures var (after, verdict) := Validate(room, cfg, u, token, now, underLimit);
            var known := token.Some? && token.value in room.payloads
                         && room.payloads[token.value].user == u && room.payloads[token.value].expiresAt > now;
            && (verdict == TokenRequired <==> token == None)
            && (verdict == TooFast <==> token.Some? && WroteLately(room, u, now))
            && (verdict == Busy <==> token.Some? && !WroteLately(room, u, now) && !underLimit)
            && (verdict == TokenInvalid <==>
                  token.Some? && !WroteLately(room, u, now) && underLimit && !known)
            && (verdict == Accepted <==> !WroteLately(room, u, now) && underLimit && known)
            && (token == None ==> after == room)
            && (token.Some? ==> (after.writes, verdict != TooFast) == Guard(room.writes, u, now, cfg.writeSeconds))
            && (verdict != Accepted ==> after == room.(writes := after.writes))
            && (verdict == Accepted ==>
                  && after.queue == room.queue && after.polls == room.polls && after.issued == room.issued
                  && after.payloads == room.payloads - {token.value} && u !in after.userTokens)
  {
  }
}
