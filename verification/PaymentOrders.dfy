/** One payment order of a participation, with the refund orders made against it. */
module PaymentOrders {
  import opened Wrappers
  import opened Totals
  import opened WalletAllocations

  type Time = int

  datatype MassKind = OrganizerCancellation | AdminCancellation | FailedToForm

  // The idempotency key of a refund; its constructor is also the refund's type.
  datatype RefundKey =
    | TimeoutKey(order: nat)
    | SelfCancelKey(order: nat)
    | MassKey(kind: MassKind, order: nat)
    | AfterSalesKey(caseNo: nat)

  datatype RefundStatus = RefundPending | RefundProcessing | RefundSucceeded | RefundFailed

  /** `retained` is the principal withheld by the cancellation rule and
      `toOrganizer` says that it is owed to the organizer; `receipt` says that the
      wallet has booked this refund. */
  datatype Refund = Refund(
    key: RefundKey,
    principal: nat,
    fee: nat,
    wallet: int,
    external: int,
    retained: int,
    toOrganizer: bool,
    status: RefundStatus,
    receipt: bool)

  datatype OrderStatus = PendingPayment | Paid | Closed | PartlyRefunded | Refunded

  /** `compensation` says that closing this order has queued the job that looks
      for a payment won by the race with the close. */
  datatype PaymentOrder = PaymentOrder(
    principal: nat,
    fee: nat,
    status: OrderStatus,
    expiresAt: Time,
    paidAt: Option<Time>,
    allocation: Option<Allocation>,
    refunds: seq<Refund>,
    compensation: bool)
  {
    function Payable(): nat { principal + fee }

    predicate IsPaid() { status in {Paid, PartlyRefunded, Refunded} }

    predicate IsRefundable() { status in {Paid, PartlyRefunded} }

    predicate IsReleased() { allocation.Some? && allocation.value.walletReleased }
  }

  // ----- refund sums -----

  function PrincipalOf(r: Refund): int { r.principal }
  function FeeOf(r: Refund): int { r.fee }
  function AmountOf(r: Refund): int { r.principal + r.fee }
  function WalletOf(r: Refund): int { r.wallet }
  function ExternalOf(r: Refund): int { r.external }
  function SucceededPrincipalOf(r: Refund): int { if r.status == RefundSucceeded then r.principal else 0 }
  function SucceededFeeOf(r: Refund): int { if r.status == RefundSucceeded then r.fee else 0 }
  function SucceededAmountOf(r: Refund): int { if r.status == RefundSucceeded then r.principal + r.fee else 0 }
  function ReceiptWalletOf(r: Refund): int { if r.receipt then r.wallet else 0 }
  function ReceiptExternalOf(r: Refund): int { if r.receipt then r.external else 0 }
  function UnfinishedOf(r: Refund): int { if r.status == RefundSucceeded then 0 else 1 }
  function DeclaredOf(r: Refund): int { if r.status == RefundSucceeded && r.toOrganizer then r.retained else 0 }

  function ReservedPrincipal(o: PaymentOrder): nat {
    TotalNonNegative(o.refunds, PrincipalOf);
    Total(o.refunds, PrincipalOf)
  }

  function ReservedFee(o: PaymentOrder): nat {
    TotalNonNegative(o.refunds, FeeOf);
    Total(o.refunds, FeeOf)
  }

  function ReservedAmount(o: PaymentOrder): nat {
    TotalNonNegative(o.refunds, AmountOf);
    Total(o.refunds, AmountOf)
  }

  function SucceededPrincipal(o: PaymentOrder): nat {
    TotalNonNegative(o.refunds, SucceededPrincipalOf);
    Total(o.refunds, SucceededPrincipalOf)
  }

  function SucceededFee(o: PaymentOrder): nat {
    TotalNonNegative(o.refunds, SucceededFeeOf);
    Total(o.refunds, SucceededFeeOf)
  }

  function SucceededAmount(o: PaymentOrder): nat {
    TotalNonNegative(o.refunds, SucceededAmountOf);
    Total(o.refunds, SucceededAmountOf)
  }


  // ----- operations on one order -----

  function Close(o: PaymentOrder): PaymentOrder {
    if o.status != PendingPayment then o
    else o.(status := Closed, compensation := true,
            allocation := if o.allocation.Some? then Some(Release(o.allocation.value)) else None)
  }

  function OpenSession(o: PaymentOrder, available: nat, externalOnly: bool, now: Time): Result<PaymentOrder> {
    if o.status != PendingPayment then Refused(StatusForbids)
    else if o.expiresAt <= now then Refused(PaymentExpired)
    else
      var a :- Prepare(o.allocation, o.Payable(), available, externalOnly);
      Ok(o.(allocation := Some(a)))
  }

  // What the channel (not the wallet) has taken when a payment succeeds.
  function Captured(o: PaymentOrder): nat {
    if o.allocation.None? then o.Payable() else o.allocation.value.external
  }

  // A payment in time: the wallet part is spent.
  function PayInTime(o: PaymentOrder, paidAt: Time): Result<PaymentOrder> {
    var paid := o.(status := Paid, paidAt := Some(paidAt));
    match o.allocation
    case None => Ok(paid)
    case Some(a) =>
      if a.status == Held then
        var consumed :- Consume(a);
        Ok(paid.(allocation := Some(consumed)))
      else if a.walletReleased then Refused(WalletConflict)
      else Ok(paid)
  }

  // A late payment: the wallet part goes back to the payer.
  function PayLate(o: PaymentOrder, paidAt: Time): PaymentOrder {
    o.(status := Paid, paidAt := Some(paidAt),
       allocation := if o.allocation.Some? then Some(Release(o.allocation.value)) else None)
  }

  function AddRefund(o: PaymentOrder, key: RefundKey, principal: int, fee: int, retained: int, toOrganizer: bool): Result<PaymentOrder> {
    if principal < 0 || fee < 0 then Refused(AmountInvalid)
    else if principal > o.principal - ReservedPrincipal(o) then Refused(AmountExceedsRefundable)
    else if fee > o.fee - ReservedFee(o) then Refused(AmountExceedsRefundable)
    else
      var legs :- Route(o.allocation, principal + fee, ReservedAmount(o), Total(o.refunds, WalletOf));
      var status := if principal + fee == 0 then RefundSucceeded else RefundPending;
      Ok(o.(refunds := o.refunds + [Refund(key, principal, fee, legs.wallet, legs.external, retained, toOrganizer, status, false)]))
  }

  function CompleteRefund(o: PaymentOrder, r: nat): Result<PaymentOrder>
    requires r < |o.refunds|
  {
    var refund := o.refunds[r];
    if refund.status == RefundSucceeded then Ok(o)
    else if o.allocation.None? then Ok(Recount(o.(refunds := o.refunds[r := refund.(status := RefundSucceeded)])))
    else
      var a :- CompleteWalletRefund(o.allocation.value, refund.wallet, refund.external, refund.receipt);
      Ok(Recount(o.(allocation := Some(a), refunds := o.refunds[r := refund.(status := RefundSucceeded, receipt := true)])))
  }

  // The order's status once a refund has succeeded.
  function Recount(o: PaymentOrder): PaymentOrder {
    var total := SucceededAmount(o);
    if total >= o.Payable() || (o.allocation.Some? && o.allocation.value.status == FullyReturned) then o.(status := Refunded)
    else if total != 0 then o.(status := PartlyRefunded)
    else o
  }

  // Taking up a refund: nothing to ask the channel for when it has no external leg.
  function TakeUpRefund(o: PaymentOrder, r: nat): Result<PaymentOrder>
    requires r < |o.refunds|
  {
    var refund := o.refunds[r];
    if refund.external == 0 then CompleteRefund(o, r)
    else if refund.status == RefundSucceeded then Ok(o)
    else Ok(o.(refunds := o.refunds[r := refund.(status := RefundProcessing)]))
  }

  // The channel's final answer "failed" is written whatever the stored status is.
  function FailRefund(o: PaymentOrder, r: nat): Result<PaymentOrder>
    requires r < |o.refunds|
  {
    var refund := o.refunds[r];
    if refund.external == 0 then Refused(NoSuchRecord)
    else Ok(o.(refunds := o.refunds[r := refund.(status := RefundFailed)]))
  }

  // ----- what holds of an order -----

  predicate SplitOk(o: PaymentOrder) {
    o.allocation.Some? ==>
      && o.allocation.value.payable == o.Payable()
      && LegsMatch(o.allocation.value)
  }

  // Refunds in every status together stay within what was paid, part by part.
  predicate ReservationOk(o: PaymentOrder) {
    ReservedPrincipal(o) <= o.principal && ReservedFee(o) <= o.fee
  }

  predicate RoutesOk(o: PaymentOrder) {
    && (forall r :: r in o.refunds ==>
          && r.wallet >= 0 && r.external >= 0
          && r.wallet + r.external == r.principal + r.fee
          && (o.allocation.None? || o.IsReleased() ==> r.wallet == 0))
    && (o.IsReleased() ==> ReservedAmount(o) <= o.allocation.value.external)
    && (o.allocation.Some? && !o.IsReleased() ==>
          Total(o.refunds, WalletOf) == WalletTarget(o.allocation.value, ReservedAmount(o)))
  }

  // The wallet's books agree with the receipts it has given.
  predicate ReceiptsOk(o: PaymentOrder) {
    && (o.allocation.None? ==> forall r :: r in o.refunds ==> !r.receipt)
    && (o.allocation.Some? ==>
          && o.allocation.value.walletReturned == Total(o.refunds, ReceiptWalletOf)
          && o.allocation.value.externalReturned == Total(o.refunds, ReceiptExternalOf))
  }

  predicate StageOk(o: PaymentOrder) {
    && (o.status == PendingPayment ==>
          && o.refunds == [] && o.paidAt.None? && !o.compensation
          && (o.allocation.Some? ==> o.allocation.value.status == Held && !o.IsReleased()))
    && (o.status == Closed ==>
          && o.refunds == [] && o.paidAt.None? && o.compensation
          && (o.allocation.Some? ==> o.allocation.value.status == Released && o.IsReleased()))
    && (o.IsPaid() ==>
          && o.paidAt.Some?
          && (o.allocation.Some? ==>
                && o.allocation.value.status != Held
                && (o.allocation.value.status == Released ==> o.IsReleased())))
  }

  predicate IsLate(o: PaymentOrder) {
    o.refunds != [] && o.refunds[0].key.TimeoutKey?
  }

  // A paid order was either paid in time, and then its wallet part was spent, or
  // late, and then its first refund gives back exactly what the channel took.
  predicate LateOk(o: PaymentOrder) {
    o.IsPaid() ==>
      && (IsLate(o) ==>
            && (o.allocation.None? || o.IsReleased())
            && o.refunds[0].principal + o.refunds[0].fee == Captured(o)
            && o.refunds[0].principal == Min(o.principal, Captured(o))
            && o.refunds[0].wallet == 0 && o.refunds[0].external == Captured(o))
      && (!IsLate(o) ==> !o.IsReleased() && !o.compensation)
  }

  // Only the first refund of an order can be anything but an after-sales refund,
  // and only a self-cancellation leaves principal to the organizer.
  predicate ShapeOk(o: PaymentOrder) {
    && (forall i :: 1 <= i < |o.refunds| ==> o.refunds[i].key.AfterSalesKey?)
    && (forall r :: r in o.refunds ==>
          r.toOrganizer ==> r.key.SelfCancelKey? && r.retained == o.principal - r.principal)
  }

  predicate OrderOk(o: PaymentOrder) {
    && SplitOk(o)
    && ReservationOk(o)
    && RoutesOk(o)
    && ReceiptsOk(o)
    && StageOk(o)
    && LateOk(o)
    && ShapeOk(o)
  }
}
