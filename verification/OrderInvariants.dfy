/** Every operation on a payment order keeps `OrderOk`. */
module OrderInvariants {
  import opened Wrappers
  import opened Totals
  import opened WalletAllocations
  import opened PaymentOrders

  lemma AmountIsSum(s: seq<Refund>)
    ensures Total(s, AmountOf) == Total(s, PrincipalOf) + Total(s, FeeOf)
    ensures Total(s, SucceededAmountOf) == Total(s, SucceededPrincipalOf) + Total(s, SucceededFeeOf)
  {
  }

  lemma LegsSum(s: seq<Refund>)
    requires forall r :: r in s ==> r.wallet + r.external == r.principal + r.fee
    ensures Total(s, WalletOf) + Total(s, ExternalOf) == Total(s, AmountOf)
  {
  }

  lemma NewOrderOk(o: PaymentOrder)
    requires o.status == PendingPayment && o.refunds == [] && o.paidAt.None? && o.allocation.None? && !o.compensation
    ensures OrderOk(o)
  {
  }

  lemma CloseKeepsOk(o: PaymentOrder)
    requires OrderOk(o)
    ensures OrderOk(Close(o))
  {
  }

  lemma OpenSessionKeepsOk(o: PaymentOrder, available: nat, externalOnly: bool, now: Time)
    requires OrderOk(o)
    ensures var r := OpenSession(o, available, externalOnly, now); r.Ok? ==> OrderOk(r.value)
  {
  }

  // An order still open can always be paid in time: its wallet part is held.
  lemma PayInTimeKeepsOk(o: PaymentOrder, paidAt: Time)
    requires OrderOk(o) && o.status == PendingPayment
    ensures PayInTime(o, paidAt).Ok?
    ensures OrderOk(PayInTime(o, paidAt).value)
    ensures PayInTime(o, paidAt).value.status == Paid && PayInTime(o, paidAt).value.refunds == []
  {
  }

  function LateRefund(o: PaymentOrder, paidAt: Time, key: RefundKey): Result<PaymentOrder> {
    var captured := Captured(o);
    var principal := Min(o.principal, captured);
    AddRefund(PayLate(o, paidAt), key, principal, captured - principal, 0, false)
  }

  // The row a late payment leaves behind.
  function PaidBack(o: PaymentOrder, paidAt: Time, key: RefundKey): PaymentOrder {
    var c := Captured(o);
    var p := Min(o.principal, c);
    var status := if c == 0 then RefundSucceeded else RefundPending;
    PayLate(o, paidAt).(refunds := [Refund(key, if p < 0 then 0 else p, if c < p then 0 else c - p, 0, c, 0, false, status, false)])
  }

  lemma LateRefundValue(o: PaymentOrder, paidAt: Time, key: RefundKey)
    requires OrderOk(o) && !o.IsPaid()
    ensures LateRefund(o, paidAt, key) == Ok(PaidBack(o, paidAt, key))
  {
    var paid := PayLate(o, paidAt);
    assert paid.refunds == [];
    assert ReservedPrincipal(paid) == 0 && ReservedFee(paid) == 0 && ReservedAmount(paid) == 0;
    assert Captured(o) <= o.Payable();
    assert Route(paid.allocation, Captured(o), 0, 0) == Ok(Legs(0, Captured(o)));
    assert paid.refunds + PaidBack(o, paidAt, key).refunds == PaidBack(o, paidAt, key).refunds;
  }

  lemma SingleRefund(o: PaymentOrder)
    requires |o.refunds| == 1
    ensures ReservedPrincipal(o) == o.refunds[0].principal
    ensures ReservedFee(o) == o.refunds[0].fee
    ensures ReservedAmount(o) == o.refunds[0].principal + o.refunds[0].fee
    ensures Total(o.refunds, ReceiptWalletOf) == ReceiptWalletOf(o.refunds[0])
    ensures Total(o.refunds, ReceiptExternalOf) == ReceiptExternalOf(o.refunds[0])
  {
    assert o.refunds == [] + [o.refunds[0]];
    TotalAppend([], o.refunds[0], PrincipalOf);
    TotalAppend([], o.refunds[0], FeeOf);
    TotalAppend([], o.refunds[0], AmountOf);
    TotalAppend([], o.refunds[0], ReceiptWalletOf);
    TotalAppend([], o.refunds[0], ReceiptExternalOf);
  }

  // A late payment always gets its compensation: the refund is never refused.
  lemma LatePaymentKeepsOk(o: PaymentOrder, paidAt: Time, key: RefundKey)
    requires OrderOk(o) && !o.IsPaid() && key.TimeoutKey?
    ensures LateRefund(o, paidAt, key) == Ok(PaidBack(o, paidAt, key))
    ensures OrderOk(PaidBack(o, paidAt, key))
  {
    LateRefundValue(o, paidAt, key);
    SingleRefund(PaidBack(o, paidAt, key));
  }

  // Conditions under which a caller may add a refund that is not a compensation.
  predicate MayAdd(o: PaymentOrder, key: RefundKey, principal: int, retained: int, toOrganizer: bool) {
    && o.IsPaid()
    && !key.TimeoutKey?
    && (o.refunds != [] ==> key.AfterSalesKey?)
    && (toOrganizer ==> key.SelfCancelKey? && retained == o.principal - principal)
  }

  /** A refund is accepted exactly if what is reserved, with it, stays within each part of
      the payment and, once the wallet's part has been let go, within the channel's. */
  lemma RefundAcceptedIff(o: PaymentOrder, key: RefundKey, principal: int, fee: int, retained: int, toOrganizer: bool)
    ensures AddRefund(o, key, principal, fee, retained, toOrganizer).Ok? <==>
      && principal >= 0 && fee >= 0
      && ReservedPrincipal(o) + principal <= o.principal && ReservedFee(o) + fee <= o.fee
      && (o.IsReleased() ==> ReservedAmount(o) + principal + fee <= o.allocation.value.external)
  {
    hide Total, WalletTarget;
  }

  lemma AddRefundSums(o: PaymentOrder, key: RefundKey, principal: int, fee: int, retained: int, toOrganizer: bool)
    requires AddRefund(o, key, principal, fee, retained, toOrganizer).Ok?
    ensures var o' := AddRefund(o, key, principal, fee, retained, toOrganizer).value;
      && principal >= 0 && fee >= 0
      && ReservedPrincipal(o') == ReservedPrincipal(o) + principal <= o.principal
      && ReservedFee(o') == ReservedFee(o) + fee <= o.fee
      && ReservedAmount(o') == ReservedAmount(o) + principal + fee
  {
    var o' := AddRefund(o, key, principal, fee, retained, toOrganizer).value;
    var r := o'.refunds[|o.refunds|];
    TotalAppend(o.refunds, r, PrincipalOf);
    TotalAppend(o.refunds, r, FeeOf);
    TotalAppend(o.refunds, r, AmountOf);
  }

  lemma AddRefundRoutes(o: PaymentOrder, key: RefundKey, principal: int, fee: int, retained: int, toOrganizer: bool)
    requires SplitOk(o) && ReservationOk(o) && RoutesOk(o)
    requires AddRefund(o, key, principal, fee, retained, toOrganizer).Ok?
    ensures RoutesOk(AddRefund(o, key, principal, fee, retained, toOrganizer).value)
  {
    var o' := AddRefund(o, key, principal, fee, retained, toOrganizer).value;
    var r := o'.refunds[|o.refunds|];
    AddRefundSums(o, key, principal, fee, retained, toOrganizer);
    TotalAppend(o.refunds, r, WalletOf);
    AmountIsSum(o.refunds);
    hide WalletTarget, Total;
    if o.allocation.Some? && !o.IsReleased() {
      TargetStep(o.allocation.value, ReservedAmount(o), principal + fee);
    }
  }

  lemma AddRefundKeepsOk(o: PaymentOrder, key: RefundKey, principal: int, fee: int, retained: int, toOrganizer: bool)
    requires OrderOk(o) && MayAdd(o, key, principal, retained, toOrganizer)
    requires AddRefund(o, key, principal, fee, retained, toOrganizer).Ok?
    ensures OrderOk(AddRefund(o, key, principal, fee, retained, toOrganizer).value)
  {
    var o' := AddRefund(o, key, principal, fee, retained, toOrganizer).value;
    var r := o'.refunds[|o.refunds|];
    AddRefundSums(o, key, principal, fee, retained, toOrganizer);
    AddRefundRoutes(o, key, principal, fee, retained, toOrganizer);
    TotalAppend(o.refunds, r, ReceiptWalletOf);
    TotalAppend(o.refunds, r, ReceiptExternalOf);
  }

  // ----- progress of a refund -----

  predicate SameMoney(x: Refund, y: Refund) {
    && x.key == y.key && x.principal == y.principal && x.fee == y.fee
    && x.wallet == y.wallet && x.external == y.external
    && x.retained == y.retained && x.toOrganizer == y.toOrganizer
  }

  lemma ProgressSums(s: seq<Refund>, i: nat, r: Refund)
    requires i < |s| && SameMoney(s[i], r)
    ensures Total(s[i := r], PrincipalOf) == Total(s, PrincipalOf)
    ensures Total(s[i := r], FeeOf) == Total(s, FeeOf)
    ensures Total(s[i := r], AmountOf) == Total(s, AmountOf)
    ensures Total(s[i := r], WalletOf) == Total(s, WalletOf)
    ensures Total(s[i := r], ExternalOf) == Total(s, ExternalOf)
    ensures Total(s[i := r], ReceiptWalletOf) == Total(s, ReceiptWalletOf) - ReceiptWalletOf(s[i]) + ReceiptWalletOf(r)
    ensures Total(s[i := r], ReceiptExternalOf) == Total(s, ReceiptExternalOf) - ReceiptExternalOf(s[i]) + ReceiptExternalOf(r)
  {
    TotalUpdate(s, i, r, PrincipalOf);
    TotalUpdate(s, i, r, FeeOf);
    TotalUpdate(s, i, r, AmountOf);
    TotalUpdate(s, i, r, WalletOf);
    TotalUpdate(s, i, r, ExternalOf);
    TotalUpdate(s, i, r, ReceiptWalletOf);
    TotalUpdate(s, i, r, ReceiptExternalOf);
  }

  // Writing a refund's status leaves everything about the money as it was.
  lemma ProgressKeepsOk(o: PaymentOrder, i: nat, r: Refund)
    requires OrderOk(o) && i < |o.refunds|
    requires SameMoney(o.refunds[i], r) && r.receipt == o.refunds[i].receipt
    ensures OrderOk(o.(refunds := o.refunds[i := r]))
  {
    hide LateOk, WalletTarget, Total;
    ProgressSums(o.refunds, i, r);
    assert LateOk(o.(refunds := o.refunds[i := r])) by { ProgressLate(o, i, r); }
  }

  lemma ProgressLate(o: PaymentOrder, i: nat, r: Refund)
    requires LateOk(o) && i < |o.refunds| && SameMoney(o.refunds[i], r)
    ensures LateOk(o.(refunds := o.refunds[i := r]))
  {
  }

  // What the wallet has booked, plus one refund it has not, is within each leg.
  lemma UnbookedRefundFits(o: PaymentOrder, i: nat)
    requires OrderOk(o) && o.allocation.Some? && i < |o.refunds| && !o.refunds[i].receipt
    ensures o.allocation.value.walletReturned + o.refunds[i].wallet <= o.allocation.value.wallet
    ensures o.allocation.value.externalReturned + o.refunds[i].external <= o.allocation.value.external
  {
    var a := o.allocation.value;
    var booked := o.refunds[i := o.refunds[i].(receipt := true)];
    ProgressSums(o.refunds, i, booked[i]);
    TotalLeq(booked, ReceiptWalletOf, WalletOf);
    TotalLeq(booked, ReceiptExternalOf, ExternalOf);
    LegsSum(o.refunds);
    AmountIsSum(o.refunds);
    if o.IsReleased() {
      TotalIsZero(o.refunds, WalletOf);
    } else {
      TargetStep(a, ReservedAmount(o), 0);
    }
  }

  lemma RecountKeepsOk(o: PaymentOrder)
    requires OrderOk(o) && o.IsPaid()
    ensures OrderOk(Recount(o))
  {
  }

  // A refund that has been reserved can always be completed.
  lemma CompletionKeepsOk(o: PaymentOrder, i: nat)
    requires OrderOk(o) && i < |o.refunds|
    ensures CompleteRefund(o, i).Ok?
    ensures OrderOk(CompleteRefund(o, i).value)
  {
    var r := o.refunds[i];
    if r.status == RefundSucceeded {
    } else if o.allocation.None? {
      var done := o.(refunds := o.refunds[i := r.(status := RefundSucceeded)]);
      ProgressKeepsOk(o, i, r.(status := RefundSucceeded));
      RecountKeepsOk(done);
    } else {
      var done := r.(status := RefundSucceeded, receipt := true);
      if !r.receipt {
        UnbookedRefundFits(o, i);
      }
      var a := CompleteWalletRefund(o.allocation.value, r.wallet, r.external, r.receipt).value;
      BookingKeepsOk(o, i, a);
      RecountKeepsOk(o.(allocation := Some(a), refunds := o.refunds[i := done]));
    }
  }

  function Booked(o: PaymentOrder, i: nat, a: Allocation): PaymentOrder
    requires i < |o.refunds|
  {
    o.(allocation := Some(a), refunds := o.refunds[i := o.refunds[i].(status := RefundSucceeded, receipt := true)])
  }

  lemma BookingKeepsOk(o: PaymentOrder, i: nat, a: Allocation)
    requires OrderOk(o) && o.allocation.Some? && i < |o.refunds|
    requires CompleteWalletRefund(o.allocation.value, o.refunds[i].wallet, o.refunds[i].external, o.refunds[i].receipt) == Ok(a)
    ensures OrderOk(Booked(o, i, a))
  {
    BookingKeepsHistory(o, i, a);
    BookingKeepsReceipts(o, i, a);
    BookingKeepsRoutes(o, i, a);
    hide LateOk, ShapeOk, ReceiptsOk, StageOk, RoutesOk, ReservationOk, SplitOk, CompleteWalletRefund, Booked;
  }

  lemma BookingKeepsReceipts(o: PaymentOrder, i: nat, a: Allocation)
    requires ReceiptsOk(o) && StageOk(o) && o.allocation.Some? && i < |o.refunds|
    requires CompleteWalletRefund(o.allocation.value, o.refunds[i].wallet, o.refunds[i].external, o.refunds[i].receipt) == Ok(a)
    ensures ReceiptsOk(Booked(o, i, a)) && StageOk(Booked(o, i, a))
  {
    hide Total;
    ProgressSums(o.refunds, i, o.refunds[i].(status := RefundSucceeded, receipt := true));
    assert o.IsPaid();
  }

  lemma BookingKeepsRoutes(o: PaymentOrder, i: nat, a: Allocation)
    requires SplitOk(o) && ReservationOk(o) && RoutesOk(o) && o.allocation.Some? && i < |o.refunds|
    requires CompleteWalletRefund(o.allocation.value, o.refunds[i].wallet, o.refunds[i].external, o.refunds[i].receipt) == Ok(a)
    ensures SplitOk(Booked(o, i, a)) && ReservationOk(Booked(o, i, a)) && RoutesOk(Booked(o, i, a))
  {
    hide Total;
    ProgressSums(o.refunds, i, o.refunds[i].(status := RefundSucceeded, receipt := true));
  }

  // What a booking leaves as it was.
  lemma BookingKeepsHistory(o: PaymentOrder, i: nat, a: Allocation)
    requires LateOk(o) && ShapeOk(o) && o.allocation.Some? && i < |o.refunds|
    requires a.walletReleased == o.allocation.value.walletReleased && a.external == o.allocation.value.external
    ensures LateOk(Booked(o, i, a)) && ShapeOk(Booked(o, i, a))
  {
  }

  lemma TakeUpKeepsOk(o: PaymentOrder, i: nat)
    requires OrderOk(o) && i < |o.refunds|
    ensures TakeUpRefund(o, i).Ok? && OrderOk(TakeUpRefund(o, i).value)
  {
    var r := o.refunds[i];
    if r.external == 0 {
      CompletionKeepsOk(o, i);
    } else if r.status != RefundSucceeded {
      ProgressKeepsOk(o, i, r.(status := RefundProcessing));
    }
  }

  lemma FailKeepsOk(o: PaymentOrder, i: nat)
    requires OrderOk(o) && i < |o.refunds| && FailRefund(o, i).Ok?
    ensures OrderOk(FailRefund(o, i).value)
  {
    ProgressKeepsOk(o, i, o.refunds[i].(status := RefundFailed));
  }
}
