/** How an activity gets submitted: its organizer pays a publishing order, possibly
    after earlier ones have lapsed. Shows that the book of an activity needs one
    publishing order only. */
module PublishPayments {
  import opened Wrappers
  import opened WalletAllocations

  type Time = int

  datatype Stage = Pending | Paid | Lapsed

  datatype GivenBack = GivenBack(principal: nat, fee: nat, wallet: int, external: int)

  // One publishing order; at most one refund record is ever made for it.
  datatype Payment = Payment(
    principal: nat, fee: nat, stage: Stage, expiresAt: Time, paidAt: Option<Time>, allocation: Option<Allocation>, refund: Option<GivenBack>)
  {
    function Payable(): nat { principal + fee }
  }

  datatype Standing = Drafting | Submitted | Reviewed

  // The publishing orders of one activity, oldest first.
  datatype Draft = Draft(standing: Standing, principal: nat, fee: nat, payments: seq<Payment>)

  // ----- operations -----

  function Lapse(p: Payment): Payment {
    p.(stage := Lapsed, allocation := if p.allocation.Some? then Some(Release(p.allocation.value)) else None)
  }

  function FindPending(ps: seq<Payment>): (r: Option<nat>)
    ensures r.Some? ==> r.value < |ps| && ps[r.value].stage == Pending
    ensures r.None? ==> forall p :: p in ps ==> p.stage != Pending
  {
    if ps == [] then None
    else if ps[|ps| - 1].stage == Pending then Some(|ps| - 1)
    else FindPending(ps[..|ps| - 1])
  }

  predicate AnyPaid(d: Draft) { exists p :: p in d.payments && p.stage == Paid }

  function Checkout(d: Draft, cityOpen: bool, timeout: nat, now: Time): Result<Draft> {
    if d.standing != Drafting then (if AnyPaid(d) then Ok(d) else Refused(StatusForbids))
    else
      var existing := FindPending(d.payments);
      if existing.Some? && d.payments[existing.value].expiresAt > now then Ok(d)
      else if !cityOpen then Refused(CityClosed)
      else
        var lapsed := if existing.Some? then d.payments[existing.value := Lapse(d.payments[existing.value])] else d.payments;
        Ok(d.(payments := lapsed + [Payment(d.principal, d.fee, Pending, now + timeout, None, None, None)]))
  }

  function Expire(d: Draft, k: nat, now: Time): Result<Draft> {
    if k >= |d.payments| then Refused(NoSuchRecord)
    else if d.payments[k].stage != Pending || d.payments[k].expiresAt > now then Ok(d)
    else Ok(d.(payments := d.payments[k := Lapse(d.payments[k])]))
  }

  function Captured(p: Payment): nat { if p.allocation.None? then p.Payable() else p.allocation.value.external }

  predicate IsLate(p: Payment, paidAt: Time) { p.stage == Lapsed || p.expiresAt <= paidAt }

  // A late payment: the wallet part goes back to the payer.
  function PaidLate(p: Payment, paidAt: Time): Payment {
    p.(stage := Paid, paidAt := Some(paidAt),
       allocation := if p.allocation.Some? then Some(Release(p.allocation.value)) else None)
  }

  // Refunds a late payment; a record already made is kept.
  function RefundLate(p: Payment, amount: nat): Result<Payment> {
    var principal := Min(p.principal, amount);
    var fee := amount - principal;
    if !(0 <= principal <= p.principal) || !(0 <= fee <= p.fee) then Refused(AmountInvalid)
    else
      var legs :- Route(p.allocation, amount, 0, 0);
      Ok(if p.refund.Some? then p else p.(refund := Some(GivenBack(principal, fee, legs.wallet, legs.external))))
  }

  function Success(d: Draft, k: nat, paidAt: Time): Result<Draft> {
    if k >= |d.payments| then Refused(NoSuchRecord)
    else
      var p := d.payments[k];
      if p.stage == Paid then Ok(d)
      else if IsLate(p, paidAt) then
        var q :- RefundLate(PaidLate(p, paidAt), Captured(p));
        Ok(d.(payments := d.payments[k := q]))
      else
        var a :- match p.allocation
          case None => Ok(None)
          case Some(a) =>
            if a.status == Held then (var c :- Consume(a); Ok(Some(c)))
            else if a.walletReleased then Refused(WalletConflict)
            else Ok(Some(a));
        Ok(d.(payments := d.payments[k := p.(stage := Paid, paidAt := Some(paidAt), allocation := a)], standing := Submitted))
  }

  // The newest order; a wallet that covers it all pays at once.
  function Open(d: Draft, available: nat, externalOnly: bool, now: Time): Result<Draft> {
    if d.payments == [] then Refused(NoSuchRecord)
    else
      var k := |d.payments| - 1;
      var p := d.payments[k];
      if p.stage != Pending then Refused(StatusForbids)
      else if p.expiresAt <= now then Refused(PaymentExpired)
      else
        var a :- Prepare(p.allocation, p.Payable(), available, externalOnly);
        var held := d.(payments := d.payments[k := p.(allocation := Some(a))]);
        if a.external == 0 then Success(held, k, now) else Ok(held)
  }

  // The job queued when an order lapses, with the channel's answer.
  function Compensate(d: Draft, k: nat, answer: Option<Time>): Result<Draft> {
    if k >= |d.payments| then Refused(NoSuchRecord)
    else
      var p := d.payments[k];
      if p.refund.Some? then Ok(d)
      else if p.stage == Paid then
        if d.standing != Drafting then Ok(d)
        else
          var amount := if p.allocation.Some? && p.allocation.value.walletReleased then p.allocation.value.external else p.Payable();
          var q :- RefundLate(p, amount);
          Ok(d.(payments := d.payments[k := q]))
      else if p.stage != Lapsed || answer.None? then Ok(d)
      else Success(d, k, answer.value)
  }

  // The newest order is the one the review checks and refunds.
  function Review(d: Draft): Result<Draft> {
    if d.standing != Submitted then Refused(StatusForbids)
    else if d.payments == [] || d.payments[|d.payments| - 1].stage != Paid then Refused(PaymentMissing)
    else Ok(d.(standing := Reviewed))
  }

  datatype Call =
    | CheckoutCall(cityOpen: bool, timeout: nat)
    | ExpireCall(k: nat)
    | OpenCall(available: nat, externalOnly: bool)
    | SuccessCall(k: nat, paidAt: Time)
    | CompensateCall(k: nat, answer: Option<Time>)
    | ReviewCall

  function Try(d: Draft, c: Call, now: Time): Result<Draft> {
    match c
    case CheckoutCall(cityOpen, timeout) => Checkout(d, cityOpen, timeout, now)
    case ExpireCall(k) => Expire(d, k, now)
    case OpenCall(available, externalOnly) => Open(d, available, externalOnly, now)
    case SuccessCall(k, paidAt) => Success(d, k, paidAt)
    case CompensateCall(k, answer) => Compensate(d, k, answer)
    case ReviewCall => Review(d)
  }

  function Next(d: Draft, c: Call, now: Time): Draft {
    var r := Try(d, c, now);
    if r.Ok? then r.value else d
  }

  datatype Event = Event(call: Call, at: Time)

  function Run(d: Draft, es: seq<Event>): Draft {
    if es == [] then d else Next(Run(d, es[..|es| - 1]), es[|es| - 1].call, es[|es| - 1].at)
  }

  function Start(principal: nat, fee: nat): Draft { Draft(Drafting, principal, fee, []) }

  // ----- what holds -----

  // Paid late: given back in full, over the channel alone, the wallet part released.
  predicate IsGivenBack(p: Payment) {
    && p.stage == Paid && p.refund.Some?
    && (p.allocation.Some? ==> p.allocation.value.walletReleased)
    && p.refund.value.principal + p.refund.value.fee == Captured(p) == p.refund.value.external && p.refund.value.wallet == 0
  }

  // Paid in time: nothing given back here, the wallet part spent.
  predicate IsKept(p: Payment) {
    && p.stage == Paid && p.refund.None?
    && (p.allocation.Some? ==> p.allocation.value.status == Consumed && !p.allocation.value.walletReleased)
  }

  predicate PaymentOk(p: Payment) {
    && (p.allocation.Some? ==> LegsMatch(p.allocation.value) && p.allocation.value.payable == p.Payable())
    && (p.stage == Pending ==> p.refund.None? && (p.allocation.Some? ==> p.allocation.value.status == Held && !p.allocation.value.walletReleased))
    && (p.stage == Lapsed ==> p.refund.None? && (p.allocation.Some? ==> p.allocation.value.walletReleased && p.allocation.value.status == Released))
  }

  /** While drafting only the newest order may be open and every paid one was given
      back; once submitted, the newest order is the one that was kept, and the only one. */
  predicate DraftOk(d: Draft) {
    && (forall k :: 0 <= k < |d.payments| ==> PaymentOk(d.payments[k]))
    && (forall k :: 0 <= k < |d.payments| - 1 ==> d.payments[k].stage == Lapsed || IsGivenBack(d.payments[k]))
    && (d.payments != [] ==>
          var last := d.payments[|d.payments| - 1];
          if d.standing == Drafting then last.stage in {Pending, Lapsed} || IsGivenBack(last) else IsKept(last))
    && (d.standing != Drafting ==> d.payments != [])
  }

  // A late payment is never refused, and gives everything captured back.
  lemma LateOk(p: Payment, paidAt: Time)
    requires PaymentOk(p) && p.stage != Paid
    ensures var r := RefundLate(PaidLate(p, paidAt), Captured(p));
      r.Ok? && IsGivenBack(r.value) && PaymentOk(r.value)
  {
    hide WalletTarget, Max;
  }

  lemma SuccessKeepsOk(d: Draft, k: nat, paidAt: Time)
    requires DraftOk(d) && k < |d.payments|
    ensures Success(d, k, paidAt).Ok?
    ensures var e := Success(d, k, paidAt).value;
      && DraftOk(e) && (d.standing != Drafting ==> e.standing == d.standing)
      && e.payments[k].stage == Paid && (IsGivenBack(e.payments[k]) || IsKept(e.payments[k]))
  {
    var p := d.payments[k];
    if p.stage != Paid {
      LateOk(p, paidAt);
    }
    hide RefundLate, Release, Consume;
    if p.stage != Paid && !IsLate(p, paidAt) {
      KeptOk(d, k, paidAt);
    }
  }

  lemma KeptOk(d: Draft, k: nat, paidAt: Time)
    requires DraftOk(d) && k < |d.payments| && d.payments[k].stage == Pending && !IsLate(d.payments[k], paidAt)
    ensures k == |d.payments| - 1 && d.standing == Drafting
    ensures Success(d, k, paidAt).Ok? && IsKept(Success(d, k, paidAt).value.payments[k]) && PaymentOk(Success(d, k, paidAt).value.payments[k])
  {
  }

  // ----- what each call does -----

  /** A publishing payment that arrives while its order is open and before it expires is
      kept and submits the activity; any other is given back and changes nothing else. */
  lemma SuccessOutcome(d: Draft, k: nat, paidAt: Time)
    requires DraftOk(d) && k < |d.payments| && d.payments[k].stage != Paid
    ensures var e := Next(d, SuccessCall(k, paidAt), paidAt);
      && |e.payments| == |d.payments| && e.payments == d.payments[k := e.payments[k]]
      && e.payments[k].paidAt == Some(paidAt)
      && if d.payments[k].stage == Pending && paidAt < d.payments[k].expiresAt then
           e == d.(payments := e.payments, standing := Submitted) && IsKept(e.payments[k])
         else
           e == d.(payments := e.payments) && IsGivenBack(e.payments[k]) && Captured(e.payments[k]) == Captured(d.payments[k])
  {
    SuccessKeepsOk(d, k, paidAt);
    LateOk(d.payments[k], paidAt);
    if !IsLate(d.payments[k], paidAt) {
      KeptOk(d, k, paidAt);
    } else {
      LateKeepsTerms(d.payments[k], paidAt);
    }
    hide DraftOk, RefundLate, IsKept, IsGivenBack, PaymentOk, Captured;
  }

  lemma LateKeepsTerms(p: Payment, paidAt: Time)
    requires PaymentOk(p) && p.stage != Paid
    ensures var r := RefundLate(PaidLate(p, paidAt), Captured(p));
      r.Ok? && Captured(r.value) == Captured(p) && r.value.paidAt == Some(paidAt)
  {
    LateOk(p, paidAt);
    hide WalletTarget;
  }

  /** Checking out keeps an order that is still open, and otherwise makes one more, on the
      terms of the activity, after letting the old one lapse; only a closed city refuses. */
  lemma CheckoutOutcome(d: Draft, cityOpen: bool, timeout: nat, now: Time)
    requires DraftOk(d)
    ensures var r := Checkout(d, cityOpen, timeout, now);
      var n := |d.payments|;
      if d.standing != Drafting || (n > 0 && d.payments[n - 1].stage == Pending && now < d.payments[n - 1].expiresAt) then r == Ok(d)
      else
        && (r.Ok? <==> cityOpen)
        && (r.Ok? ==>
              && |r.value.payments| == n + 1 && r.value == d.(payments := r.value.payments)
              && r.value.payments[n] == Payment(d.principal, d.fee, Pending, now + timeout, None, None, None)
              && (forall k :: 0 <= k < n ==>
                    r.value.payments[k] == (if d.payments[k].stage == Pending then Lapse(d.payments[k]) else d.payments[k])))
  {
    var n := |d.payments|;
    if d.standing != Drafting {
      assert d.payments[n - 1] in d.payments;
    }
    hide IsGivenBack, PaymentOk, Lapse;
  }

  /** The newest order can be opened exactly while it is open; it is split by the balance,
      and paid at once exactly if nothing is left for the channel. */
  lemma OpenOutcome(d: Draft, available: nat, externalOnly: bool, now: Time)
    requires DraftOk(d)
    ensures var r := Open(d, available, externalOnly, now);
      var n := |d.payments|;
      && (r.Ok? <==> n > 0 && d.payments[n - 1].stage == Pending && now < d.payments[n - 1].expiresAt)
      && (r.Ok? ==>
            && |r.value.payments| == n && r.value.payments == d.payments[n - 1 := r.value.payments[n - 1]]
            && r.value.payments[n - 1].allocation.Some?
            && var o, a := d.payments[n - 1], r.value.payments[n - 1].allocation.value;
              && a.wallet + a.external == a.payable == o.Payable()
              && (if o.allocation.Some? then a.wallet == o.allocation.value.wallet
                  else if externalOnly then a.wallet == 0
                  else a.wallet == Min(available, o.Payable()))
              && (a.external == 0 ==> IsKept(r.value.payments[n - 1]) && r.value.standing == Submitted)
              && (a.external > 0 ==> r.value.payments[n - 1] == o.(allocation := Some(a)) && r.value.standing == d.standing))
  {
    hide IsGivenBack;
  }

  /** A job after an order lapsed gives back a payment that arrived after all, and nothing
      else; lapsing happens to open orders past their time only. */
  lemma JobsOutcome(d: Draft, k: nat, answer: Option<Time>, now: Time)
    requires DraftOk(d) && k < |d.payments|
    ensures Compensate(d, k, answer) == if d.payments[k].stage == Lapsed && answer.Some? then Success(d, k, answer.value) else Ok(d)
    ensures Expire(d, k, now) ==
      Ok(if d.payments[k].stage == Pending && d.payments[k].expiresAt <= now then
           d.(payments := d.payments[k := Lapse(d.payments[k])])
         else d)
  {
    hide Success, RefundLate, Lapse;
  }

  /** An activity can be reviewed exactly if it has been submitted. */
  lemma ReviewOutcome(d: Draft)
    requires DraftOk(d)
    ensures Review(d) == if d.standing == Submitted then Ok(d.(standing := Reviewed)) else Refused(StatusForbids)
  {
    hide IsGivenBack, PaymentOk;
  }

  lemma CheckoutKeepsOk(d: Draft, cityOpen: bool, timeout: nat, now: Time)
    requires DraftOk(d) && Checkout(d, cityOpen, timeout, now).Ok?
    ensures DraftOk(Checkout(d, cityOpen, timeout, now).value)
  {
    hide IsGivenBack, IsKept;
  }

  lemma OpenKeepsOk(d: Draft, available: nat, externalOnly: bool, now: Time)
    requires DraftOk(d) && Open(d, available, externalOnly, now).Ok?
    ensures DraftOk(Open(d, available, externalOnly, now).value)
    ensures d.standing != Drafting ==> Open(d, available, externalOnly, now).value.standing == d.standing
  {
    hide Success, IsGivenBack;
    var k := |d.payments| - 1;
    var a := Prepare(d.payments[k].allocation, d.payments[k].Payable(), available, externalOnly).value;
    var held := d.(payments := d.payments[k := d.payments[k].(allocation := Some(a))]);
    assert DraftOk(held);
    SuccessKeepsOk(held, k, now);
  }

  lemma NextKeepsOk(d: Draft, c: Call, now: Time)
    requires DraftOk(d)
    ensures DraftOk(Next(d, c, now))
    ensures d.standing == Reviewed ==> Next(d, c, now).standing == Reviewed
    ensures d.standing == Submitted ==> Next(d, c, now).standing != Drafting
  {
    match c
    case CheckoutCall(cityOpen, timeout) =>
      hide Checkout, IsGivenBack, IsKept, PaymentOk;
      CheckoutStanding(d, cityOpen, timeout, now);
      if Try(d, c, now).Ok? {
        CheckoutKeepsOk(d, cityOpen, timeout, now);
      }
    case OpenCall(available, externalOnly) =>
      hide Open, DraftOk;
      if Try(d, c, now).Ok? {
        OpenKeepsOk(d, available, externalOnly, now);
      }
    case SuccessCall(k, paidAt) =>
      hide Success, DraftOk;
      if k < |d.payments| {
        SuccessKeepsOk(d, k, paidAt);
      } else {
        NoSuchPayment(d, k, paidAt);
      }
    case CompensateCall(k, answer) =>
      hide Success;
      if k < |d.payments| && answer.Some? {
        SuccessKeepsOk(d, k, answer.value);
      }
    case _ =>
  }

  lemma NoSuchPayment(d: Draft, k: nat, paidAt: Time)
    requires k >= |d.payments|
    ensures Success(d, k, paidAt).Refused?
  {
  }

  lemma CheckoutStanding(d: Draft, cityOpen: bool, timeout: nat, now: Time)
    ensures var r := Checkout(d, cityOpen, timeout, now); r.Ok? ==> r.value.standing == d.standing
  {
  }

  lemma {:induction false} RunKeepsOk(d: Draft, es: seq<Event>)
    requires DraftOk(d)
    ensures DraftOk(Run(d, es))
    ensures d.standing == Reviewed ==> Run(d, es).standing == Reviewed
  {
    hide DraftOk, Next;
    if es != [] {
      RunKeepsOk(d, es[..|es| - 1]);
      NextKeepsOk(Run(d, es[..|es| - 1]), es[|es| - 1].call, es[|es| - 1].at);
    }
  }

  /** However checkouts, lapses and channel answers interleave: an activity that left
      the draft stage has exactly one publishing payment that was kept, the newest;
      every other payment that arrived was given back in full. */
  lemma OnePaymentKept(principal: nat, fee: nat, es: seq<Event>)
    ensures var d := Run(Start(principal, fee), es);
      && (d.standing != Drafting ==> d.payments != [] && IsKept(d.payments[|d.payments| - 1]))
      && (forall k :: 0 <= k < |d.payments| && d.payments[k].stage == Paid ==>
            IsGivenBack(d.payments[k]) || (IsKept(d.payments[k]) && k == |d.payments| - 1 && d.standing != Drafting))
  {
    RunKeepsOk(Start(principal, fee), es);
    hide Run, IsGivenBack, IsKept, PaymentOk;
  }

  /** No payment, however late, sends a reviewed activity back for review. */
  lemma ReviewedForGood(d: Draft, es: seq<Event>)
    requires DraftOk(d) && d.standing == Reviewed
    ensures Run(d, es).standing == Reviewed
  {
    RunKeepsOk(d, es);
  }
}
