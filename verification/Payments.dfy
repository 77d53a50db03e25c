/** Payment statuses and the effect of one provider result on a registration and its payment. */
module Payments {
  datatype RegistrationStatus = PendingPayment | Confirmed | Cancelled | Expired

  datatype PaymentStatus =
    | PendingSimulation
    | PendingProvider
    | Unknown
    | Completed
    | Failed
    | PaymentExpired
    | RequiresReview

  predicate IsTerminal(s: PaymentStatus) {
    s == Completed || s == Failed || s == PaymentExpired || s == RequiresReview
  }

  predicate IsActive(s: RegistrationStatus) {
    s == PendingPayment || s == Confirmed
  }

  /** A result that ends the payment, one way or the other. */
  predicate Conclusive(s: PaymentStatus) {
    s == Completed || s == Failed || s == PaymentExpired
  }

  /** Only code 0 completes a payment, and only 99 and -1 leave it open; every unlisted code fails it. */
  function MapResultCode(code: string): (mapped: PaymentStatus)
    ensures mapped == Completed <==> code == "0"
    ensures Conclusive(mapped) <==> code != "99" && code != "-1"
    ensures mapped == PaymentExpired <==> code == "7002"
    ensures !Conclusive(mapped) ==> mapped == Unknown
  {
    if code == "0" then Completed
    else if code == "1006" || code == "1003" then Failed
    else if code == "7002" then PaymentExpired
    else if code == "99" || code == "-1" then Unknown
    else Failed
  }

  /** A registration's status beside its payment's status. */
  datatype Pair = Pair(reg: RegistrationStatus, pay: PaymentStatus)

  /** What one mapped provider result makes of a pair; the branches are in the order of the source. */
  function ApplyResult(p: Pair, mapped: PaymentStatus): Pair {
    if p.pay == Completed then p
    else if IsTerminal(p.pay) then
      if p.reg != PendingPayment && mapped == Completed then p.(pay := RequiresReview) else p
    else if p.reg != PendingPayment then
      if mapped == Completed then p.(pay := RequiresReview) else p
    else if mapped == Completed then Pair(Confirmed, Completed)
    else if mapped == Failed then Pair(Cancelled, Failed)
    else if mapped == PaymentExpired then Pair(Expired, PaymentExpired)
    else p.(pay := Unknown)
  }

  function ApplyResults(p: Pair, rs: seq<PaymentStatus>): Pair
    decreases rs
  {
    if rs == [] then p else ApplyResults(ApplyResult(p, rs[0]), rs[1..])
  }

  /** The coupling that holds between a registration and its payment in every reachable state. */
  predicate Coupled(p: Pair) {
    && (p.reg == PendingPayment ==> !IsTerminal(p.pay))
    && (p.pay == Completed ==> p.reg == Confirmed)
    && (p.pay == Failed ==> p.reg == Cancelled)
    && (p.pay == PaymentExpired ==> p.reg == Expired)
  }

  /** The tighter coupling the design asks for: a settled registration has a settled payment. */
  predicate Settled(p: Pair) {
    && (p.reg == Confirmed ==> p.pay == Completed)
    && (p.reg == Cancelled ==> p.pay == Failed || p.pay == RequiresReview)
    && (p.reg == Expired ==> p.pay == PaymentExpired || p.pay == RequiresReview)
  }

  /** The position of the first conclusive result, or |rs| when there is none. */
  function FirstConclusive(rs: seq<PaymentStatus>): (k: nat)
    ensures k <= |rs|
    ensures k < |rs| ==> Conclusive(rs[k])
    ensures forall i :: 0 <= i < k ==> !Conclusive(rs[i])
  {
    if rs == [] || Conclusive(rs[0]) then 0 else 1 + FirstConclusive(rs[1..])
  }

  lemma {:induction false} CompletedStays(rs: seq<PaymentStatus>)
    ensures ApplyResults(Pair(Confirmed, Completed), rs) == Pair(Confirmed, Completed)
  {
    if rs != [] { CompletedStays(rs[1..]); }
  }

  lemma {:induction false} ReleasedStays(p: Pair, rs: seq<PaymentStatus>)
    requires p.reg == Cancelled || p.reg == Expired
    requires IsTerminal(p.pay) && p.pay != Completed
    ensures ApplyResults(p, rs) == p.(pay := if Completed in rs then RequiresReview else p.pay)
    decreases rs
  {
    if rs != [] { ReleasedStays(ApplyResult(p, rs[0]), rs[1..]); }
  }

  /**
   * Any finite sequence of results on a pending pair is decided by its first conclusive member:
   * a completion stays confirmed and paid; a failure or an expiry stays as it is, except that a
   * later completion sends the payment to review.
   */
  lemma {:induction false} FirstConclusiveDecides(p: Pair, rs: seq<PaymentStatus>)
    requires p.reg == PendingPayment && !IsTerminal(p.pay)
    ensures
      var k := FirstConclusive(rs);
      ApplyResults(p, rs) ==
      if rs == [] then p
      else if k == |rs| then Pair(PendingPayment, Unknown)
      else if rs[k] == Completed then Pair(Confirmed, Completed)
      else Pair(if rs[k] == Failed then Cancelled else Expired,
                if Completed in rs[k + 1..] then RequiresReview else rs[k])
    decreases rs
  {
    if rs != [] {
      var q := ApplyResult(p, rs[0]);
      if Conclusive(rs[0]) {
        if rs[0] == Completed { CompletedStays(rs[1..]); } else { ReleasedStays(q, rs[1..]); }
      } else {
        FirstConclusiveDecides(q, rs[1..]);
        var k := FirstConclusive(rs);
        if k < |rs| { assert rs[1..][k - 1 + 1..] == rs[k + 1..]; }
      }
    }
  }
}
