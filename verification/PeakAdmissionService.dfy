/** The peak admission service, Redis command by Redis command, against the waiting room. */
module PeakAdmissionServices {
  import opened Wrappers
  import opened WaitingRooms

  class PeakAdmissionService {
    const cfg: Config
    var queue: map<UserId, int>
    var userTokens: map<UserId, Grant>
    var payloads: map<Token, Payload>
    var active: map<Token, int>
    var polls: map<UserId, int>
    var writes: map<UserId, int>
    ghost var issued: set<Token>

    ghost function State(): Room
      reads this
    {
      Room(queue, userTokens, payloads, active, polls, writes, issued)
    }

    constructor (cfg: Config)
      ensures this.cfg == cfg && State() == VACANT
    {
      this.cfg := cfg;
      queue, userTokens, payloads, active, polls, writes, issued := map[], map[], map[], map[], map[], map[], {};
    }

    /** guardPollRate: SET NX EX succeeds only when no live key is there. */
    method GuardPollRate(u: UserId, now: int) returns (ok: bool)
      modifies this`polls
      ensures (polls, ok) == Guard(old(polls), u, now, cfg.pollSeconds)
    {
      ok := u !in polls || polls[u] <= now;
      if ok { polls := polls[u := now + cfg.pollSeconds * 1000]; }
    }

    /** guardWriteRate. */
    method GuardWriteRate(u: UserId, now: int) returns (ok: bool)
      modifies this`writes
      ensures (writes, ok) == Guard(old(writes), u, now, cfg.writeSeconds)
    {
      ok := u !in writes || writes[u] <= now;
      if ok { writes := writes[u := now + cfg.writeSeconds * 1000]; }
    }

    /** getActiveAdmissionTokenCount trims the active set before it counts. */
    method ActiveTokenCount(now: int) returns (count: nat)
      modifies this`active
      ensures active == Trim(old(active), now) && count == |Live(old(State()), now)|
    {
      LiveAfterTrim(State(), now);
      active := Trim(active, now);
      count := |active.Keys|;
    }

    /** Leave the queue and write the token, its user's key and its member of the active set. */
    method IssueToken(u: UserId, drawn: Token, expiresAt: int)
      modifies this`queue, this`active, this`issued, this`payloads, this`userTokens
      ensures queue == old(queue) - {u} && issued == old(issued) + {drawn}
      ensures payloads == old(payloads)[drawn := Payload(u, expiresAt)]
      ensures userTokens == old(userTokens)[u := Grant(drawn, expiresAt)]
      ensures active == old(active)[drawn := expiresAt]
    {
      queue := queue - {u};
      issued := issued + {drawn};
      payloads := payloads[drawn := Payload(u, expiresAt)];
      userTokens := userTokens[u := Grant(drawn, expiresAt)];
      active := active[drawn := expiresAt];
    }

    /** requestAdmission from the look-up of the place on. */
    method JoinOrAdmit(u: UserId, now: int, capacity: int, reserved: int, drawn: Token) returns (reply: Reply)
      modifies this`queue, this`active, this`issued, this`payloads, this`userTokens
      ensures (State(), reply) == QueueUp(old(State()), cfg, u, now, capacity, reserved, drawn)
    {
      hide Rank, Budget, Live, Trim, QueueUp;
      QueueUpStepwise(State(), cfg, u, now, capacity, reserved, drawn);
      if u !in queue { queue := queue[u := now]; }
      LiveIsActive(old(State()), State(), now);
      var rank := Rank(queue, u);
      var count := ActiveTokenCount(now);
      if rank < Budget(capacity, reserved, cfg.bufferSeats, count) {
        IssueToken(u, drawn, now + cfg.tokenTtlSeconds * 1000);
        return Admitted(drawn);
      }
      reply := Waiting(rank + 1);
    }

    method RequestAdmission(u: UserId, now: int, published: bool, capacity: int, reserved: int,
                            drawn: Token) returns (reply: Reply)
      modifies this
      ensures !published ==> State() == old(State()) && reply == NotFound
      ensures published ==>
        (State(), reply) == WaitingRooms.RequestAdmission(old(State()), cfg, u, now, capacity, reserved, drawn)
    {
      hide QueueUp;
      if !published { return NotFound; }
      var ok := GuardPollRate(u, now);
      if !ok { return RateLimited; }
      if reserved >= capacity { return Full; }
      if u in userTokens && userTokens[u].expiresAt > now { return Admitted(userTokens[u].token); }
      reply := JoinOrAdmit(u, now, capacity, reserved, drawn);
    }

    method ValidateRegistrationAttempt(u: UserId, token: Option<Token>, now: int,
                                       underLimit: bool) returns (verdict: Verdict)
      modifies this
      ensures (State(), verdict) == Validate(old(State()), cfg, u, token, now, underLimit)
    {
      if token == None { return TokenRequired; }
      var ok := GuardWriteRate(u, now);
      if !ok { return TooFast; }
      if !underLimit { return Busy; }
      var t := token.value;
      if t !in payloads || payloads[t].expiresAt <= now { return TokenInvalid; }
      if payloads[t].user != u { return TokenInvalid; }
      payloads := payloads - {t};
      userTokens := userTokens - {u};
      active := active - {t};
      verdict := Accepted;
    }
  }
}
