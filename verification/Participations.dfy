/** One person's participation in the activity: its payment orders, oldest first,
    and its after-sales cases. */
module Participations {
  import opened Wrappers
  import opened Totals
  import opened WalletAllocations
  import opened PaymentOrders

  datatype ParticipationStatus = Awaiting | Active | Cancelled | Expired

  datatype CaseStatus = CasePending | CaseProcessing | CaseApproved | CaseRejected

  // Where a refund row lives: the payment order and the refund's place on it.
  datatype RefundRef = RefundRef(order: nat, refund: nat)

  datatype AfterSalesCase = AfterSalesCase(
    requestedPrincipal: nat,
    requestedFee: nat,
    approvedPrincipal: int,
    approvedFee: int,
    status: CaseStatus,
    refund: Option<RefundRef>,
    requiresSupervisor: bool)

  datatype Participation = Participation(
    user: nat,
    status: ParticipationStatus,
    principal: nat,
    fee: nat,
    holdUntil: Option<Time>,
    orders: seq<PaymentOrder>,
    cases: seq<AfterSalesCase>)

  // One line of the activity's refund rules; percentages of principal and fee.
  datatype RefundRule = RefundRule(beforeHours: int, principalPercent: int, feePercent: int)

  // ----- queries -----

  // The newest order in a given condition (`order_by("-created_at").first()`).
  function Newest(orders: seq<PaymentOrder>, p: PaymentOrder -> bool): (r: Option<nat>)
    ensures r.Some? ==> r.value < |orders| && p(orders[r.value])
    ensures r.Some? ==> forall i :: r.value < i < |orders| ==> !p(orders[i])
    ensures r.None? ==> forall i :: 0 <= i < |orders| ==> !p(orders[i])
  {
    if orders == [] then None
    else if p(orders[|orders| - 1]) then Some(|orders| - 1)
    else Newest(orders[..|orders| - 1], p)
  }

  predicate OrderIsOpen(o: PaymentOrder) { o.status == PaymentOrders.PendingPayment }

  predicate OrderIsRefundable(o: PaymentOrder) { o.IsRefundable() }

  function OpenOrder(p: Participation): Option<nat> { Newest(p.orders, OrderIsOpen) }

  function LatestRefundable(p: Participation): Option<nat> { Newest(p.orders, OrderIsRefundable) }

  function FindRefund(refunds: seq<Refund>, key: RefundKey): (r: Option<nat>)
    ensures r.Some? ==> r.value < |refunds| && refunds[r.value].key == key
    ensures r.None? ==> forall x :: x in refunds ==> x.key != key
  {
    if refunds == [] then None
    else if refunds[|refunds| - 1].key == key then Some(|refunds| - 1)
    else FindRefund(refunds[..|refunds| - 1], key)
  }

  function FindKey(orders: seq<PaymentOrder>, key: RefundKey): (r: Option<RefundRef>)
    ensures r.Some? ==> r.value.order < |orders| && r.value.refund < |orders[r.value.order].refunds|
    ensures r.Some? ==> orders[r.value.order].refunds[r.value.refund].key == key
    ensures r.None? ==> forall o, x :: o in orders && x in o.refunds ==> x.key != key
  {
    if orders == [] then None
    else
      var n := |orders| - 1;
      var here := FindRefund(orders[n].refunds, key);
      if here.Some? then Some(RefundRef(n, here.value)) else FindKey(orders[..n], key)
  }

  predicate CaseIsOpen(p: Participation, c: AfterSalesCase) {
    || c.status in {CasePending, CaseProcessing}
    || (c.status == CaseApproved && (c.refund.None? || RefundStatusAt(p, c.refund.value) != RefundSucceeded))
  }

  function RefundStatusAt(p: Participation, ref: RefundRef): RefundStatus {
    if ref.order < |p.orders| && ref.refund < |p.orders[ref.order].refunds| then p.orders[ref.order].refunds[ref.refund].status
    else RefundPending
  }

  predicate HasOpenCase(p: Participation) {
    exists c :: c in p.cases && CaseIsOpen(p, c)
  }

  predicate HasUndecidedCase(p: Participation) {
    exists c :: c in p.cases && c.status in {CasePending, CaseProcessing}
  }

  predicate HasOpen(p: Participation) {
    p.orders != [] && p.orders[|p.orders| - 1].status == PaymentOrders.PendingPayment
  }

  function ActiveOf(p: Participation): int { if p.status == Active then 1 else 0 }

  // A seat that is taken or still being paid for.
  function SeatOf(p: Participation): int { if p.status == Active || HasOpen(p) then 1 else 0 }

  predicate HoldsSeat(p: Participation, now: Time) {
    p.status == Active || (p.status == Awaiting && p.holdUntil.Some? && p.holdUntil.value > now)
  }

  function OccupiedBy(now: Time): Participation -> int {
    (p: Participation) => if HoldsSeat(p, now) then 1 else 0
  }

  // ----- hold expiry -----

  predicate IsDue(o: PaymentOrder, now: Time) {
    o.status == PaymentOrders.PendingPayment && o.expiresAt <= now
  }

  function ExpireOne(p: Participation, o: nat, now: Time): Participation
    requires o < |p.orders|
  {
    if !IsDue(p.orders[o], now) then p
    else
      var closed := p.(orders := p.orders[o := Close(p.orders[o])]);
      if p.status == Awaiting then closed.(status := Expired, holdUntil := None) else closed
  }

  // The first n orders have been looked at.
  function ExpireFirst(p: Participation, n: nat, now: Time): (r: Participation)
    requires n <= |p.orders|
    ensures |r.orders| == |p.orders|
  {
    if n == 0 then p else ExpireOne(ExpireFirst(p, n - 1, now), n - 1, now)
  }

  function ExpireDue(p: Participation, now: Time): Participation {
    ExpireFirst(p, |p.orders|, now)
  }

  // ----- sign-up -----

  function NewOrder(principal: nat, fee: nat, expiresAt: Time): PaymentOrder {
    PaymentOrder(principal, fee, PaymentOrders.PendingPayment, expiresAt, None, None, [], false)
  }

  function NewParticipation(user: nat, principal: nat, fee: nat, expiresAt: Time): Participation {
    Participation(user, Awaiting, principal, fee, Some(expiresAt), [NewOrder(principal, fee, expiresAt)], [])
  }

  function SignUpAgain(p: Participation, principal: nat, fee: nat, expiresAt: Time): Participation {
    p.(status := Awaiting, principal := principal, fee := fee, holdUntil := Some(expiresAt),
       orders := p.orders + [NewOrder(principal, fee, expiresAt)])
  }

  // ----- refunds -----

  datatype RefundOutcome = RefundOutcome(participation: Participation, ref: RefundRef, created: bool)

  function CreateRefund(
    p: Participation, o: nat, key: RefundKey, principal: int, fee: int, retained: int, toOrganizer: bool
  ): Result<RefundOutcome>
    requires o < |p.orders|
  {
    match FindKey(p.orders, key)
    case Some(ref) =>
      if ref.order != o || AmountOf(p.orders[ref.order].refunds[ref.refund]) != principal + fee then Refused(IdempotencyConflict)
      else Ok(RefundOutcome(p, ref, false))
    case None =>
      var order :- AddRefund(p.orders[o], key, principal, fee, retained, toOrganizer);
      Ok(RefundOutcome(p.(orders := p.orders[o := order]), RefundRef(o, |p.orders[o].refunds|), true))
  }

  // ----- payment success -----

  predicate PaymentIsLate(p: Participation, o: PaymentOrder, paidAt: Time) {
    o.status == Closed || o.expiresAt <= paidAt || p.status in {Cancelled, Expired}
  }

  datatype Success = Success(participation: Participation, changed: bool, late: bool)

  function ApplySuccess(p: Participation, o: nat, paidAt: Time): Result<Success>
    requires o < |p.orders|
  {
    var order := p.orders[o];
    if order.IsPaid() then Ok(Success(p, false, false))
    else if PaymentIsLate(p, order, paidAt) then
      var captured := Captured(order);
      var principal := Min(order.principal, captured);
      var paid := p.(orders := p.orders[o := PayLate(order, paidAt)]);
      var r :- CreateRefund(paid, o, TimeoutKey(o), principal, captured - principal, 0, false);
      Ok(Success(r.participation, true, true))
    else
      var paid :- PayInTime(order, paidAt);
      Ok(Success(p.(orders := p.orders[o := paid], status := Active, holdUntil := None), true, false))
  }

  // A payment known to be late is refunded; a compensation on record is left alone.
  function EnsureCompensation(p: Participation, o: nat): Result<Participation>
    requires o < |p.orders|
  {
    var order := p.orders[o];
    if HasCompensation(order) then Ok(p)
    else
      var captured := if order.IsReleased() then order.allocation.value.external else order.Payable();
      var principal := Min(order.principal, captured);
      var r :- CreateRefund(p, o, TimeoutKey(o), principal, captured - principal, 0, false);
      Ok(r.participation)
  }

  predicate HasCompensation(o: PaymentOrder) {
    exists r :: r in o.refunds && r.key.TimeoutKey?
  }

  /** The job queued when an order was closed. `paidAt` is the channel's answer to
      its payment query: the time of a successful payment, if there was one. */
  function Compensate(p: Participation, o: nat, paidAt: Option<Time>): Result<Participation>
    requires o < |p.orders|
  {
    var order := p.orders[o];
    if !order.compensation then Refused(NoSuchRecord)
    else if HasCompensation(order) || order.status == Refunded then Ok(p)
    else if order.IsRefundable() then
      if p.status in {Cancelled, Expired} then EnsureCompensation(p, o) else Ok(p)
    else if order.status != Closed || paidAt.None? then Ok(p)
    else
      var s :- ApplySuccess(p, o, paidAt.value);
      if o < |s.participation.orders| then EnsureCompensation(s.participation, o) else Ok(s.participation)
  }

  // ----- cancellation -----

  function RoundPercent(amount: nat, percent: int): int {
    (amount * percent + 50) / 100
  }

  // The rule with the longest notice that the remaining time still meets.
  function MatchRule(rules: seq<RefundRule>, secondsBefore: int): RefundRule {
    if rules == [] then RefundRule(0, 0, 0)
    else
      var rest := MatchRule(rules[..|rules| - 1], secondsBefore);
      var last := rules[|rules| - 1];
      var met := exists r :: r in rules[..|rules| - 1] && secondsBefore >= 3600 * r.beforeHours;
      if secondsBefore >= 3600 * last.beforeHours && (!met || last.beforeHours > rest.beforeHours) then last else rest
  }

  function CloseAwaiting(p: Participation): Participation {
    var cancelled := p.(status := Cancelled, holdUntil := None);
    match OpenOrder(p)
    case None => cancelled
    case Some(o) => cancelled.(orders := p.orders[o := Close(p.orders[o])])
  }

  function SelfCancel(p: Participation, rules: seq<RefundRule>, startsAt: Time, now: Time): Result<Participation> {
    if p.status == Cancelled then Ok(p)
    else if p.status == Awaiting then Ok(CloseAwaiting(p))
    else if p.status != Active then Refused(StatusForbids)
    else if HasUndecidedCase(p) then Refused(AfterSalesOpen)
    else if LatestRefundable(p).None? then Refused(PaymentMissing)
    else if startsAt - now < 0 then Refused(AlreadyStarted)
    else
      var o := LatestRefundable(p).value;
      var rule := MatchRule(rules, startsAt - now);
      var principal := RoundPercent(p.principal, rule.principalPercent);
      var fee := RoundPercent(p.fee, rule.feePercent);
      var retained := p.principal - principal;
      var r :- CreateRefund(p, o, SelfCancelKey(o), principal, fee, retained, retained != 0);
      Ok(r.participation.(status := Cancelled))
  }

  // Cancelling everyone: an open order is closed, a taken seat is refunded in full.
  function MassCancel(p: Participation, kind: MassKind): Result<Participation> {
    if p.status == Awaiting then Ok(CloseAwaiting(p))
    else if p.status != Active then Ok(p)
    else if LatestRefundable(p).None? then Refused(PaymentMissing)
    else
      var o := LatestRefundable(p).value;
      var order := p.orders[o];
      var r :- CreateRefund(p, o, MassKey(kind, o), order.principal - ReservedPrincipal(order), order.fee - ReservedFee(order), 0, false);
      Ok(r.participation.(status := Cancelled, holdUntil := None))
  }

  // ----- after-sales -----

  /** Registers a case for what is left of the latest refundable order, or for the
      smaller amounts a member of staff asks for; an unfinished case is kept. */
  function CreateCase(p: Participation, staff: Option<(nat, nat)>): Result<Participation> {
    if HasOpenCase(p) then (if staff.None? then Ok(p) else Refused(AfterSalesOpen))
    else if LatestRefundable(p).None? then Refused(PaymentMissing)
    else
      var order := p.orders[LatestRefundable(p).value];
      var principal := order.principal - ReservedPrincipal(order);
      var fee := order.fee - ReservedFee(order);
      if principal + fee <= 0 then Refused(NothingRefundable)
      else if principal < 0 || fee < 0 then Refused(AmountInvalid)
      else if staff.None? then Ok(p.(cases := p.cases + [AfterSalesCase(principal, fee, 0, 0, CasePending, None, false)]))
      else if Total(order.refunds, UnfinishedOf) != 0 then Refused(RefundUnfinished)
      else if staff.value.0 + staff.value.1 == 0 then Refused(AmountInvalid)
      else if staff.value.0 > principal || staff.value.1 > fee then Refused(AmountExceedsRefundable)
      else Ok(p.(cases := p.cases + [AfterSalesCase(staff.value.0, staff.value.1, 0, 0, CasePending, None, false)]))
  }

  function SetCase(p: Participation, c: nat, x: AfterSalesCase): Participation
    requires c < |p.cases|
  {
    p.(cases := p.cases[c := x])
  }

  function StartReview(p: Participation, c: nat): Result<Participation>
    requires c < |p.cases|
  {
    if p.cases[c].status != CasePending then Refused(StatusForbids)
    else Ok(SetCase(p, c, p.cases[c].(status := CaseProcessing)))
  }

  function Escalate(p: Participation, c: nat): Result<Participation>
    requires c < |p.cases|
  {
    if p.cases[c].status !in {CasePending, CaseProcessing} then Refused(StatusForbids)
    else Ok(SetCase(p, c, p.cases[c].(requiresSupervisor := true)))
  }

  function RejectCase(p: Participation, c: nat): Result<Participation>
    requires c < |p.cases|
  {
    if p.cases[c].status !in {CasePending, CaseProcessing} then Refused(StatusForbids)
    else Ok(SetCase(p, c, p.cases[c].(status := CaseRejected)))
  }

  /** Approval refunds the latest refundable order, whichever order the case was
      computed from. `authorised` is the refund authority's verdict: without it the
      case is passed on to a supervisor and nothing is refunded. */
  function ApproveCase(
    p: Participation, c: nat, principalGiven: Option<int>, feeGiven: Option<int>, authorised: bool
  ): Result<Participation>
    requires c < |p.cases|
  {
    var x := p.cases[c];
    var principal := if principalGiven.Some? then principalGiven.value else x.requestedPrincipal;
    var fee := if feeGiven.Some? then feeGiven.value else x.requestedFee;
    if x.status !in {CasePending, CaseProcessing} then Refused(StatusForbids)
    else if principal > x.requestedPrincipal || fee > x.requestedFee then Refused(AmountExceedsRefundable)
    else if LatestRefundable(p).None? then Refused(PaymentMissing)
    else
      var o := LatestRefundable(p).value;
      var order := p.orders[o];
      if principal < 0 || fee < 0 || principal + fee <= 0 then Refused(AmountInvalid)
      else if principal > order.principal - ReservedPrincipal(order) || fee > order.fee - ReservedFee(order) then
        Refused(AmountExceedsRefundable)
      else if Total(order.refunds, UnfinishedOf) != 0 then Refused(RefundUnfinished)
      else if !authorised then Ok(SetCase(p, c, x.(requiresSupervisor := true)))
      else
        var r :- CreateRefund(p, o, AfterSalesKey(c), principal, fee, 0, false);
        var approved := x.(status := CaseApproved, approvedPrincipal := principal, approvedFee := fee, refund := Some(r.ref));
        var q := SetCase(r.participation, c, approved);
        Ok(if q.status == Active then q.(status := Cancelled) else q)
  }

  // ----- progress of a refund -----

  predicate RefExists(p: Participation, ref: RefundRef) {
    ref.order < |p.orders| && ref.refund < |p.orders[ref.order].refunds|
  }

  datatype Progress = TakeUp | ChannelSucceeded | ChannelFailed

  function Advance(p: Participation, ref: RefundRef, step: Progress): Result<Participation>
    requires RefExists(p, ref)
  {
    var order := p.orders[ref.order];
    var order' :- match step
      case TakeUp => TakeUpRefund(order, ref.refund)
      case ChannelSucceeded => CompleteRefund(order, ref.refund)
      case ChannelFailed => FailRefund(order, ref.refund);
    Ok(p.(orders := p.orders[ref.order := order']))
  }

  // ----- what holds of a participation -----

  function Last(p: Participation): PaymentOrder
    requires p.orders != []
  {
    p.orders[|p.orders| - 1]
  }

  predicate OnlyLastOpen(p: Participation) {
    forall i :: 0 <= i < |p.orders| - 1 ==> p.orders[i].status != PaymentOrders.PendingPayment
  }

  // A seat belongs to the newest order, paid in time and with no refund; an open
  // order keeps its participation waiting until the order expires.
  predicate SeatOk(p: Participation)
    requires p.orders != []
  {
    && Last(p).principal == p.principal && Last(p).fee == p.fee
    && (p.status == Active ==>
          Last(p).status == Paid && Last(p).refunds == [] && !Last(p).IsReleased())
    && (Last(p).status == PaymentOrders.PendingPayment ==>
          p.status == Awaiting && p.holdUntil == Some(Last(p).expiresAt))
  }

  // A refund's key names its order, or the case that pays for it.
  predicate KeyOk(p: Participation, i: nat, j: nat)
    requires i < |p.orders| && j < |p.orders[i].refunds|
  {
    match p.orders[i].refunds[j].key
    case AfterSalesKey(c) => c < |p.cases| && p.cases[c].status == CaseApproved && p.cases[c].refund == Some(RefundRef(i, j))
    case TimeoutKey(o) => o == i
    case SelfCancelKey(o) => o == i
    case MassKey(_, o) => o == i
  }

  predicate KeysOk(p: Participation) {
    forall i: nat, j: nat :: i < |p.orders| && j < |p.orders[i].refunds| ==> KeyOk(p, i, j)
  }

  predicate ParticipationOk(p: Participation) {
    && p.orders != []
    && (forall o :: o in p.orders ==> OrderOk(o))
    && OnlyLastOpen(p)
    && SeatOk(p)
    && KeysOk(p)
  }
}
