/** The few ways in which any call can change a payment order. What each way keeps,
    every run keeps. */
module OrderMoves {
  import opened Wrappers
  import opened Totals
  import opened WalletAllocations
  import opened PaymentOrders
  import opened OrderInvariants
  import opened Participations
  import opened ParticipationInvariants

  datatype Move =
    | Stay
    | CloseMove
    | SessionMove(available: nat, externalOnly: bool, at: Time)
    | WalletMove(available: nat, externalOnly: bool, at: Time)
    | InTimeMove(paidAt: Time)
    | LateMove(paidAt: Time, key: RefundKey)
    | RefundMove(key: RefundKey, principal: int, fee: int, retained: int, toOrganizer: bool)
    | ProgressMove(refund: nat, step: Progress)

  predicate Applies(m: Move, o: PaymentOrder, o': PaymentOrder) {
    match m
    case Stay => o' == o
    case CloseMove => o' == Close(o)
    case SessionMove(available, externalOnly, at) => OpenSession(o, available, externalOnly, at) == Ok(o')
    case WalletMove(available, externalOnly, at) =>
      var s := OpenSession(o, available, externalOnly, at);
      s.Ok? && !s.value.IsPaid() && PayInTime(s.value, at) == Ok(o')
    case InTimeMove(paidAt) => !o.IsPaid() && PayInTime(o, paidAt) == Ok(o')
    case LateMove(paidAt, key) => !o.IsPaid() && key.TimeoutKey? && o' == PaidBack(o, paidAt, key)
    case RefundMove(key, principal, fee, retained, toOrganizer) =>
      o.IsPaid() && !key.TimeoutKey? && Total(o.refunds, UnfinishedOf) == 0 && AddRefund(o, key, principal, fee, retained, toOrganizer) == Ok(o')
    case ProgressMove(r, step) => r < |o.refunds| && Stepped(o, r, step, o')
  }

  // The channel does not call a refund failed after it has called it successful.
  predicate Consistent(m: Move, o: PaymentOrder) {
    m.ProgressMove? && m.step == ChannelFailed && m.refund < |o.refunds| ==> o.refunds[m.refund].status != RefundSucceeded
  }

  // ----- history only grows -----

  // Once paid an order stays paid, and no refund row is ever dropped or re-priced.
  predicate Extends(o: PaymentOrder, o': PaymentOrder) {
    && o'.principal == o.principal && o'.fee == o.fee
    && (o.IsPaid() ==> o'.IsPaid() && o'.paidAt == o.paidAt)
    && (o.compensation ==> o'.compensation)
    && |o.refunds| <= |o'.refunds|
    && (forall j :: 0 <= j < |o.refunds| ==> SameMoney(o.refunds[j], o'.refunds[j]))
  }

  lemma MoveExtends(m: Move, o: PaymentOrder, o': PaymentOrder)
    requires OrderOk(o) && Applies(m, o, o')
    ensures Extends(o, o')
  {
    hide Total, RoutesOk, ReceiptsOk, ShapeOk, LateOk, SplitOk;
    match m
    case ProgressMove(r, step) =>
      ProgressRows(o, r, step, o');
      ProgressKeepsCompensation(o, r, step, o');
      hide Stepped;
    case RefundMove(key, principal, fee, retained, toOrganizer) => hide AddRefund; AddedRow(o, key, principal, fee, retained, toOrganizer, o');
    case _ =>
  }

  lemma ProgressKeepsCompensation(o: PaymentOrder, r: nat, step: Progress, o': PaymentOrder)
    requires r < |o.refunds| && Stepped(o, r, step, o')
    ensures o'.compensation == o.compensation
  {
    hide Total;
  }

  lemma AddedRow(o: PaymentOrder, key: RefundKey, principal: int, fee: int, retained: int, toOrganizer: bool, o': PaymentOrder)
    requires AddRefund(o, key, principal, fee, retained, toOrganizer) == Ok(o')
    ensures |o'.refunds| == |o.refunds| + 1 && o' == o.(refunds := o.refunds + [o'.refunds[|o.refunds|]])
    ensures var r := o'.refunds[|o.refunds|];
      && r.key == key && r.principal == principal && r.fee == fee && !r.receipt
      && r.status == (if principal + fee == 0 then RefundSucceeded else RefundPending)
  {
    hide Total;
  }

  lemma ExtendsTransitive(a: PaymentOrder, b: PaymentOrder, c: PaymentOrder)
    requires Extends(a, b) && Extends(b, c)
    ensures Extends(a, c)
  {
  }

  lemma {:induction false} RowsReserveMore(s: seq<Refund>, s': seq<Refund>)
    requires |s| <= |s'| && forall j :: 0 <= j < |s| ==> SameMoney(s[j], s'[j])
    ensures Total(s, PrincipalOf) <= Total(s', PrincipalOf) && Total(s, FeeOf) <= Total(s', FeeOf)
  {
    if s' != [] {
      var n := |s'| - 1;
      if |s| == |s'| {
        RowsReserveMore(s[..n], s'[..n]);
      } else {
        RowsReserveMore(s, s'[..n]);
      }
    }
  }

  lemma ReservedNeverShrinks(o: PaymentOrder, o': PaymentOrder)
    requires Extends(o, o')
    ensures ReservedPrincipal(o) <= ReservedPrincipal(o') && ReservedFee(o) <= ReservedFee(o')
  {
    RowsReserveMore(o.refunds, o'.refunds);
  }

  // ----- the order's status and the ledger of succeeded refunds -----

  // What there is to give back: once the wallet's part has been let go, the channel's.
  function Returnable(o: PaymentOrder): nat { if o.IsReleased() then o.allocation.value.external else o.Payable() }

  predicate StatusAgrees(o: PaymentOrder) {
    o.IsPaid() ==>
      && (o.status == Paid <==> SucceededAmount(o) == 0)
      && (o.status == PartlyRefunded <==> 0 < SucceededAmount(o) < Returnable(o))
      && (o.status == Refunded <==> 0 < SucceededAmount(o) == Returnable(o))
  }

  // A refund that moves money has a receipt exactly when it has succeeded.
  predicate ReceiptsAgree(o: PaymentOrder) {
    o.allocation.Some? ==>
      forall r :: r in o.refunds ==> (r.receipt <==> r.status == RefundSucceeded && r.principal + r.fee != 0)
  }

  predicate FullMeansAll(o: PaymentOrder) {
    o.allocation.Some? && o.allocation.value.status == FullyReturned ==>
      o.allocation.value.walletReturned + o.allocation.value.externalReturned >= Returnable(o)
  }

  predicate LedgerOk(o: PaymentOrder) {
    && o.principal > 0
    && StatusAgrees(o)
    && ReceiptsAgree(o)
    && FullMeansAll(o)
    && (forall r :: r in o.refunds && r.principal + r.fee == 0 ==> r.status == RefundSucceeded)
    && Total(o.refunds, UnfinishedOf) <= 1
  }

  lemma {:induction false} ReceiptsAddUp(s: seq<Refund>)
    requires forall r :: r in s ==> (r.receipt <==> r.status == RefundSucceeded && r.principal + r.fee != 0)
    requires forall r :: r in s ==> r.wallet + r.external == r.principal + r.fee
    ensures Total(s, ReceiptWalletOf) + Total(s, ReceiptExternalOf) == Total(s, SucceededAmountOf)
  {
    if s != [] {
      ReceiptsAddUp(s[..|s| - 1]);
    }
  }

  lemma SucceededWithinReturnable(o: PaymentOrder)
    requires ReservationOk(o) && RoutesOk(o)
    ensures SucceededAmount(o) <= Returnable(o)
  {
    TotalLeq(o.refunds, SucceededAmountOf, AmountOf);
    AmountIsSum(o.refunds);
    hide Total, WalletTarget;
  }

  lemma AppendKeepsLedger(o: PaymentOrder, r: Refund)
    requires LedgerOk(o) && Total(o.refunds, UnfinishedOf) == 0
    requires !r.receipt && r.status == (if r.principal + r.fee == 0 then RefundSucceeded else RefundPending)
    ensures LedgerOk(o.(refunds := o.refunds + [r]))
  {
    TotalAppend(o.refunds, r, SucceededAmountOf);
    TotalAppend(o.refunds, r, UnfinishedOf);
    assert SucceededAmount(o.(refunds := o.refunds + [r])) == SucceededAmount(o);
  }

  lemma RefundMoveKeepsLedger(o: PaymentOrder, key: RefundKey, principal: int, fee: int, retained: int, toOrganizer: bool, o': PaymentOrder)
    requires LedgerOk(o) && Applies(RefundMove(key, principal, fee, retained, toOrganizer), o, o')
    ensures LedgerOk(o')
  {
    AddedRow(o, key, principal, fee, retained, toOrganizer, o');
    hide LedgerOk, AddRefund;
    AppendKeepsLedger(o, o'.refunds[|o.refunds|]);
  }

  lemma LateMoveKeepsLedger(o: PaymentOrder, paidAt: Time, key: RefundKey, o': PaymentOrder)
    requires OrderOk(o) && LedgerOk(o) && Applies(LateMove(paidAt, key), o, o')
    ensures LedgerOk(o')
  {
    LatePaymentKeepsOk(o, paidAt, key);
    var r := o'.refunds[0];
    assert o'.refunds == [] + [r];
    TotalAppend([], r, SucceededAmountOf);
    TotalAppend([], r, UnfinishedOf);
  }

  lemma UnfinishedNonNegative(s: seq<Refund>)
    ensures Total(s, UnfinishedOf) >= 0
  {
    TotalNonNegative(s, UnfinishedOf);
  }

  // A change of one refund's status that does not complete it.
  lemma RestatusKeepsLedger(o: PaymentOrder, i: nat, status: RefundStatus)
    requires OrderOk(o) && LedgerOk(o) && i < |o.refunds|
    requires o.refunds[i].status != RefundSucceeded && status != RefundSucceeded
    ensures LedgerOk(o.(refunds := o.refunds[i := o.refunds[i].(status := status)]))
  {
    hide OrderOk;
    var r := o.refunds[i].(status := status);
    TotalUpdate(o.refunds, i, r, SucceededAmountOf);
    TotalUpdate(o.refunds, i, r, UnfinishedOf);
  }

  // The row as completed, before the order's status is recounted.
  function Completed(o: PaymentOrder, i: nat): PaymentOrder
    requires i < |o.refunds|
    requires CompleteRefund(o, i).Ok? && o.refunds[i].status != RefundSucceeded
  {
    var r := o.refunds[i];
    if o.allocation.None? then o.(refunds := o.refunds[i := r.(status := RefundSucceeded)])
    else
      o.(allocation := Some(CompleteWalletRefund(o.allocation.value, r.wallet, r.external, r.receipt).value),
         refunds := o.refunds[i := r.(status := RefundSucceeded, receipt := true)])
  }

  lemma CompletedKeepsOk(o: PaymentOrder, i: nat)
    requires OrderOk(o) && i < |o.refunds|
    requires CompleteRefund(o, i).Ok? && o.refunds[i].status != RefundSucceeded
    ensures OrderOk(Completed(o, i)) && CompleteRefund(o, i) == Ok(Recount(Completed(o, i)))
  {
    var r := o.refunds[i];
    if o.allocation.None? {
      ProgressKeepsOk(o, i, r.(status := RefundSucceeded));
    } else {
      BookingKeepsOk(o, i, CompleteWalletRefund(o.allocation.value, r.wallet, r.external, r.receipt).value);
    }
  }

  // The wallet calls a payment fully returned exactly when the last of it is booked.
  lemma FullyReturnedMeans(a: Allocation, w: int, e: int, b: Allocation)
    requires CompleteWalletRefund(a, w, e, false) == Ok(b) && LegsMatch(a) && (a.status == Released ==> a.walletReleased)
    requires a.walletReturned + w >= 0
    ensures b.status == FullyReturned ==> b.walletReturned + b.externalReturned >= (if b.walletReleased then b.external else b.payable)
    ensures b.walletReleased ==> b.status == FullyReturned || b.externalReturned < b.external
  {
  }

  lemma CompletedIsFull(o: PaymentOrder, i: nat)
    requires OrderOk(o) && LedgerOk(o) && i < |o.refunds|
    requires CompleteRefund(o, i).Ok? && o.refunds[i].status != RefundSucceeded
    ensures var q := Completed(o, i);
      && FullMeansAll(q)
      && (q.IsReleased() ==> q.allocation.value.status == FullyReturned || q.allocation.value.externalReturned < q.allocation.value.external)
  {
    if o.allocation.Some? {
      var r := o.refunds[i];
      assert r in o.refunds && !r.receipt;
      TotalNonNegative(o.refunds, ReceiptWalletOf);
      hide LateOk, ShapeOk, StatusAgrees, Total, CompleteWalletRefund;
      FullyReturnedMeans(o.allocation.value, r.wallet, r.external, Completed(o, i).allocation.value);
      SameSplit(o.allocation.value, r.wallet, r.external);
    }
  }

  lemma SameSplit(a: Allocation, w: int, e: int)
    ensures var b := CompleteWalletRefund(a, w, e, false);
      b.Ok? ==> b.value.payable == a.payable && b.value.external == a.external && b.value.walletReleased == a.walletReleased
  {
  }

  lemma CompletedLedger(o: PaymentOrder, i: nat)
    requires OrderOk(o) && LedgerOk(o) && i < |o.refunds|
    requires CompleteRefund(o, i).Ok? && o.refunds[i].status != RefundSucceeded
    ensures var q := Completed(o, i);
      && ReceiptsAgree(q) && FullMeansAll(q) && Total(q.refunds, UnfinishedOf) <= 1
      && SucceededAmount(q) > 0
      && (q.IsReleased() ==> q.allocation.value.status == FullyReturned || q.allocation.value.externalReturned < q.allocation.value.external)
      && (forall r :: r in q.refunds && r.principal + r.fee == 0 ==> r.status == RefundSucceeded)
  {
    CompletedIsFull(o, i);
    hide LateOk, ShapeOk, StatusAgrees, ReservationOk, FullMeansAll, CompleteWalletRefund;
    var q := Completed(o, i);
    assert o.refunds[i].principal + o.refunds[i].fee != 0;
    TotalUpdate(o.refunds, i, q.refunds[i], SucceededAmountOf);
    TotalUpdate(o.refunds, i, q.refunds[i], UnfinishedOf);
    assert SucceededAmount(q) == SucceededAmount(o) + o.refunds[i].principal + o.refunds[i].fee;
  }

  lemma RecountAgrees(o: PaymentOrder)
    requires OrderOk(o) && o.IsPaid() && o.principal > 0 && SucceededAmount(o) > 0
    requires ReceiptsAgree(o) && FullMeansAll(o)
    requires o.IsReleased() ==> o.allocation.value.status == FullyReturned || o.allocation.value.externalReturned < o.allocation.value.external
    ensures StatusAgrees(Recount(o))
  {
    SucceededWithinReturnable(o);
    if o.allocation.Some? {
      ReceiptsAddUp(o.refunds);
      if o.IsReleased() {
        TotalIsZero(o.refunds, ReceiptWalletOf);
      }
    }
    hide LateOk, ShapeOk, StageOk;
  }

  lemma CompletionKeepsLedger(o: PaymentOrder, i: nat, o': PaymentOrder)
    requires OrderOk(o) && LedgerOk(o) && i < |o.refunds| && CompleteRefund(o, i) == Ok(o')
    ensures LedgerOk(o')
  {
    if o.refunds[i].status != RefundSucceeded {
      CompletedKeepsOk(o, i);
      CompletedLedger(o, i);
      assert Completed(o, i).IsPaid() by { assert StageOk(o); }
      RecountAgrees(Completed(o, i));
      hide OrderOk, CompleteRefund;
    }
  }

  lemma UnpaidMovesKeepLedger(m: Move, o: PaymentOrder, o': PaymentOrder)
    requires OrderOk(o) && LedgerOk(o) && Applies(m, o, o')
    requires m.Stay? || m.CloseMove? || m.SessionMove? || m.WalletMove? || m.InTimeMove?
    ensures LedgerOk(o')
  {
    hide LateOk, ShapeOk, ReservationOk;
  }

  /** Every way an order can change keeps its status in step with its ledger, as long
      as the channel does not take back an answer. */
  lemma MoveKeepsLedger(m: Move, o: PaymentOrder, o': PaymentOrder)
    requires OrderOk(o) && LedgerOk(o) && Applies(m, o, o') && Consistent(m, o)
    ensures LedgerOk(o')
  {
    match m
    case RefundMove(key, principal, fee, retained, toOrganizer) => RefundMoveKeepsLedger(o, key, principal, fee, retained, toOrganizer, o');
    case LateMove(paidAt, key) => LateMoveKeepsLedger(o, paidAt, key, o');
    case ProgressMove(r, step) => ProgressKeepsLedger(o, r, step, o');
    case _ => UnpaidMovesKeepLedger(m, o, o');
  }

  lemma ProgressKeepsLedger(o: PaymentOrder, r: nat, step: Progress, o': PaymentOrder)
    requires OrderOk(o) && LedgerOk(o) && r < |o.refunds| && Stepped(o, r, step, o')
    requires step == ChannelFailed ==> o.refunds[r].status != RefundSucceeded
    ensures LedgerOk(o')
  {
    hide OrderOk, LedgerOk, CompleteRefund;
    if step == ChannelSucceeded || (step == TakeUp && o.refunds[r].external == 0) {
      CompletionKeepsLedger(o, r, o');
    } else if o.refunds[r].status != RefundSucceeded {
      RestatusKeepsLedger(o, r, if step == TakeUp then RefundProcessing else RefundFailed);
    }
  }

  /** A failure written over a success is the one thing that can part the status from
      the ledger. It does so unless the order was partly refunded and still is. */
  lemma StatusSurvivesFailureIff(o: PaymentOrder, r: nat, o': PaymentOrder)
    requires OrderOk(o) && LedgerOk(o) && r < |o.refunds| && FailRefund(o, r) == Ok(o')
    ensures StatusAgrees(o') <==>
      || o.refunds[r].status != RefundSucceeded
      || (o.status == PartlyRefunded && SucceededAmount(o) != o.refunds[r].principal + o.refunds[r].fee)
  {
    if o.refunds[r].status != RefundSucceeded {
      RestatusKeepsLedger(o, r, RefundFailed);
    } else {
      assert o.IsPaid() by { assert StageOk(o); }
      TotalUpdate(o.refunds, r, o'.refunds[r], SucceededAmountOf);
      assert SucceededAmount(o') == SucceededAmount(o) - o.refunds[r].principal - o.refunds[r].fee;
      assert o.refunds[r].principal + o.refunds[r].fee > 0 by { assert RoutesOk(o); assert o.refunds[r] in o.refunds; }
      assert ReservationOk(o) && RoutesOk(o);
      SucceededWithinReturnable(o);
      hide OrderOk, Total;
    }
  }

  /** Likewise for the rule that an order has at most one unfinished refund. */
  lemma OneUnfinishedSurvivesFailureIff(o: PaymentOrder, r: nat, o': PaymentOrder)
    requires LedgerOk(o) && r < |o.refunds| && FailRefund(o, r) == Ok(o')
    ensures Total(o'.refunds, UnfinishedOf) <= 1 <==>
      o.refunds[r].status != RefundSucceeded || Total(o.refunds, UnfinishedOf) == 0
  {
    UnfinishedNonNegative(o.refunds);
    TotalUpdate(o.refunds, r, o'.refunds[r], UnfinishedOf);
    hide Total;
  }

  lemma SingleProgress(o: PaymentOrder)
    requires |o.refunds| == 1
    ensures SucceededAmount(o) == SucceededAmountOf(o.refunds[0])
    ensures Total(o.refunds, UnfinishedOf) == UnfinishedOf(o.refunds[0])
  {
    assert o.refunds == [] + [o.refunds[0]];
    TotalAppend([], o.refunds[0], SucceededAmountOf);
    TotalAppend([], o.refunds[0], UnfinishedOf);
  }

  /** What each step of a refund leaves on record; a step of one refund changes no other,
      and only a failure can be refused, of a refund the channel was never asked for. */
  lemma StepOutcome(o: PaymentOrder, r: nat, step: Progress)
    requires OrderOk(o) && r < |o.refunds|
    ensures var done := match step
        case TakeUp => TakeUpRefund(o, r)
        case ChannelSucceeded => CompleteRefund(o, r)
        case ChannelFailed => FailRefund(o, r);
      && (done.Ok? <==> step == ChannelFailed ==> o.refunds[r].external != 0)
      && (done.Ok? ==>
            && |done.value.refunds| == |o.refunds| && done.value.refunds == o.refunds[r := done.value.refunds[r]]
            && SameMoney(o.refunds[r], done.value.refunds[r])
            && done.value.refunds[r].status ==
                 (match step
                  case TakeUp => if o.refunds[r].external == 0 || o.refunds[r].status == RefundSucceeded then RefundSucceeded else RefundProcessing
                  case ChannelSucceeded => RefundSucceeded
                  case ChannelFailed => RefundFailed))
  {
    CompletionKeepsOk(o, r);
    RowCompleted(o, r);
    hide OrderOk, CompleteRefund;
  }

  lemma RowCompleted(o: PaymentOrder, r: nat)
    requires r < |o.refunds| && CompleteRefund(o, r).Ok?
    ensures var q := CompleteRefund(o, r).value;
      && |q.refunds| == |o.refunds| && q.refunds == o.refunds[r := q.refunds[r]]
      && SameMoney(o.refunds[r], q.refunds[r]) && q.refunds[r].status == RefundSucceeded
  {
    hide SucceededAmount, CompleteWalletRefund;
  }

  // A refund of everything that succeeded and is then reported as failed.
  lemma StatusCanPart() returns (o: PaymentOrder, o': PaymentOrder)
    ensures OrderOk(o) && LedgerOk(o) && |o.refunds| == 1
    ensures FailRefund(o, 0) == Ok(o') && !StatusAgrees(o')
  {
    var row := Refund(AfterSalesKey(0), 100, 5, 0, 105, 0, false, RefundSucceeded, false);
    o := PaymentOrder(100, 5, PaymentOrders.Refunded, 10, Some(1), None, [row], false);
    o' := o.(refunds := [row.(status := RefundFailed)]);
    assert o.refunds[0 := row.(status := RefundFailed)] == o'.refunds;
    SingleRefund(o);
    SingleProgress(o);
    SingleProgress(o');
    hide Total, SucceededAmount, ReservedAmount, ReservedPrincipal, ReservedFee;
  }

  // One refund succeeded and another pending, and the first is then reported as failed.
  lemma TwoCanStayUnfinished() returns (o: PaymentOrder, o': PaymentOrder)
    ensures OrderOk(o) && LedgerOk(o) && |o.refunds| == 2
    ensures FailRefund(o, 0) == Ok(o') && Total(o'.refunds, UnfinishedOf) == 2 && !StatusAgrees(o')
  {
    var done := Refund(SelfCancelKey(0), 50, 0, 0, 50, 50, true, RefundSucceeded, false);
    var next := Refund(AfterSalesKey(0), 50, 0, 0, 50, 0, false, RefundPending, false);
    o := PaymentOrder(100, 0, PartlyRefunded, 10, Some(1), None, [done, next], false);
    o' := o.(refunds := [done.(status := RefundFailed), next]);
    assert o.refunds[0 := done.(status := RefundFailed)] == o'.refunds;
    PairSums(done, next);
    PairSums(done.(status := RefundFailed), next);
    hide Total;
  }

  lemma PairSums(x: Refund, y: Refund)
    ensures forall f: Refund -> int :: Total([x, y], f) == f(x) + f(y)
  {
    forall f: Refund -> int
      ensures Total([x, y], f) == f(x) + f(y)
    {
      assert [x, y] == [] + [x] + [y];
      TotalAppend([], x, f);
      TotalAppend([] + [x], y, f);
    }
  }
}
