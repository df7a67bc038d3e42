/** Every operation on a participation keeps `ParticipationOk`; what each of them
    does to the participant's seat and to the principal not yet given back. */
module ParticipationInvariants {
  import opened Wrappers
  import opened Totals
  import opened WalletAllocations
  import opened PaymentOrders
  import opened OrderInvariants
  import opened Participations

  // Principal paid in time on an order and not reserved for a refund. A late payment
  // is all given back.
  function OrderMargin(o: PaymentOrder): int {
    if o.IsPaid() && !IsLate(o) then o.principal - ReservedPrincipal(o) else 0
  }

  function MarginOf(p: Participation): int { Total(p.orders, OrderMargin) }

  predicate SameKeys(x: PaymentOrder, y: PaymentOrder) {
    && |x.refunds| == |y.refunds|
    && forall j :: 0 <= j < |x.refunds| ==> x.refunds[j].key == y.refunds[j].key
  }

  // Changing one order in place, keeping its list of refunds.
  lemma ReplaceKeepsOk(p: Participation, i: nat, o: PaymentOrder, q: Participation)
    requires ParticipationOk(p) && i < |p.orders| && OrderOk(o) && SameKeys(p.orders[i], o)
    requires i < |p.orders| - 1 ==> o.status != PaymentOrders.PendingPayment
    requires q.orders == p.orders[i := o] && q.cases == p.cases && SeatOk(q)
    ensures ParticipationOk(q)
    ensures MarginOf(q) == MarginOf(p) - OrderMargin(p.orders[i]) + OrderMargin(o)
  {
    hide OrderOk;
    TotalUpdate(p.orders, i, o, OrderMargin);
    forall k: nat, j: nat | k < |q.orders| && j < |q.orders[k].refunds|
      ensures KeyOk(q, k, j)
    {
      assert KeyOk(p, k, j);
    }
  }

  // Adding a refund to one order, and possibly deciding one undecided case.
  lemma AddedKeepsKeys(p: Participation, o: nat, order: PaymentOrder, r: Refund, q: Participation)
    requires KeysOk(p) && o < |p.orders|
    requires order.refunds == p.orders[o].refunds + [r] && q.orders == p.orders[o := order]
    requires |q.cases| >= |p.cases|
    requires forall c :: 0 <= c < |p.cases| && p.cases[c].status == CaseApproved ==> q.cases[c] == p.cases[c]
    requires KeyOk(q, o, |p.orders[o].refunds|)
    ensures KeysOk(q)
  {
    forall k: nat, j: nat | k < |q.orders| && j < |q.orders[k].refunds|
      ensures KeyOk(q, k, j)
    {
      if k != o || j < |p.orders[o].refunds| {
        assert KeyOk(p, k, j);
      }
    }
  }

  lemma AddedKeepsOk(p: Participation, o: nat, order: PaymentOrder, r: Refund, q: Participation)
    requires ParticipationOk(p) && o < |p.orders| && OrderOk(order)
    requires order.refunds == p.orders[o].refunds + [r] && q.orders == p.orders[o := order]
    requires |q.cases| >= |p.cases|
    requires forall c :: 0 <= c < |p.cases| && p.cases[c].status == CaseApproved ==> q.cases[c] == p.cases[c]
    requires KeyOk(q, o, |p.orders[o].refunds|)
    requires order.IsPaid() && SeatOk(q)
    ensures ParticipationOk(q)
    ensures MarginOf(q) == MarginOf(p) - OrderMargin(p.orders[o]) + OrderMargin(order)
  {
    hide OrderOk;
    TotalUpdate(p.orders, o, order, OrderMargin);
    AddedKeepsKeys(p, o, order, r, q);
  }

  // ----- hold expiry -----

  lemma ExpireOneKeepsOk(p: Participation, now: Time)
    requires ParticipationOk(p)
    ensures var q := ExpireOne(p, |p.orders| - 1, now);
      && ParticipationOk(q)
      && ActiveOf(q) == ActiveOf(p) && SeatOf(q) <= SeatOf(p) && MarginOf(q) == MarginOf(p)
      && (HasOpen(q) ==> q == p && HoldsSeat(q, now))
      && (p.status == Active ==> q == p)
      && q.user == p.user && q.cases == p.cases && |q.orders| == |p.orders|
      && (HasOpen(p) && !HasOpen(q) ==> q.status == Expired)
  {
    hide OrderOk;
    var n := |p.orders| - 1;
    if IsDue(p.orders[n], now) {
      var q := ExpireOne(p, n, now);
      assert OrderOk(Close(p.orders[n])) by { CloseKeepsOk(p.orders[n]); }
      ReplaceKeepsOk(p, n, Close(p.orders[n]), q);
    }
  }

  // An older order is never open, so the sweep changes at most the newest one.
  lemma {:induction false} SweepIsLast(p: Participation, n: nat, now: Time)
    requires ParticipationOk(p) && n <= |p.orders|
    ensures ExpireFirst(p, n, now) == if n < |p.orders| then p else ExpireOne(p, |p.orders| - 1, now)
  {
    hide OrderOk, KeysOk, SeatOk;
    if n > 0 {
      SweepIsLast(p, n - 1, now);
    }
  }

  lemma ExpireDueKeepsOk(p: Participation, now: Time)
    requires ParticipationOk(p)
    ensures var q := ExpireDue(p, now);
      && ParticipationOk(q)
      && ActiveOf(q) == ActiveOf(p) && SeatOf(q) <= SeatOf(p) && MarginOf(q) == MarginOf(p)
      && (HasOpen(q) ==> q == p && HoldsSeat(q, now))
      && (p.status == Active ==> q == p)
      && q.user == p.user && q.cases == p.cases && |q.orders| == |p.orders|
      && (HasOpen(p) && !HasOpen(q) ==> q.status == Expired)
  {
    hide ParticipationOk;
    SweepIsLast(p, |p.orders|, now);
    ExpireOneKeepsOk(p, now);
  }

  // ----- sign-up -----

  lemma NewParticipationOk(user: nat, principal: nat, fee: nat, expiresAt: Time)
    ensures var q := NewParticipation(user, principal, fee, expiresAt);
      ParticipationOk(q) && ActiveOf(q) == 0 && SeatOf(q) == 1 && MarginOf(q) == 0 && q.user == user
  {
    hide OrderOk;
    var o := NewOrder(principal, fee, expiresAt);
    NewOrderOk(o);
    TotalAppend([], o, OrderMargin);
    assert NewParticipation(user, principal, fee, expiresAt).orders == [] + [o];
  }

  lemma SignUpAgainKeepsOk(p: Participation, principal: nat, fee: nat, expiresAt: Time)
    requires ParticipationOk(p) && !HasOpen(p) && p.status != Active
    ensures var q := SignUpAgain(p, principal, fee, expiresAt);
      ParticipationOk(q) && ActiveOf(q) == 0 && SeatOf(q) == 1 && MarginOf(q) == MarginOf(p)
  {
    hide OrderOk;
    var o := NewOrder(principal, fee, expiresAt);
    NewOrderOk(o);
    TotalAppend(p.orders, o, OrderMargin);
    var q := SignUpAgain(p, principal, fee, expiresAt);
    forall k: nat, j: nat | k < |q.orders| && j < |q.orders[k].refunds|
      ensures KeyOk(q, k, j)
    {
      assert KeyOk(p, k, j);
    }
  }

  // ----- payment success -----

  lemma NoRefundNoKey(p: Participation, o: nat, key: RefundKey)
    requires KeysOk(p) && o < |p.orders| && p.orders[o].refunds == []
    requires key == TimeoutKey(o) || key == SelfCancelKey(o) || (key.MassKey? && key.order == o)
    ensures FindKey(p.orders, key).None?
  {
    forall k: nat, j: nat | k < |p.orders| && j < |p.orders[k].refunds|
      ensures p.orders[k].refunds[j].key != key
    {
      assert KeyOk(p, k, j);
    }
  }

  // What a payment that is not late does: the seat is taken.
  lemma InTimeKeepsOk(p: Participation, o: nat, paidAt: Time)
    requires ParticipationOk(p) && o < |p.orders| && !p.orders[o].IsPaid()
    requires !PaymentIsLate(p, p.orders[o], paidAt)
    ensures o == |p.orders| - 1 && p.status == Awaiting && HasOpen(p)
    ensures ApplySuccess(p, o, paidAt).Ok?
    ensures var q := ApplySuccess(p, o, paidAt).value.participation;
      && ParticipationOk(q)
      && q.status == Active && SeatOf(q) == SeatOf(p) == 1
      && MarginOf(q) >= MarginOf(p)
      && q.user == p.user && q.cases == p.cases
  {
    var order := p.orders[o];
    assert order.status == PaymentOrders.PendingPayment;
    PayInTimeKeepsOk(order, paidAt);
    var paid := PayInTime(order, paidAt).value;
    var q := ApplySuccess(p, o, paidAt).value.participation;
    PaidInTimeShape(order, paidAt);
    hide OrderOk;
    ReplaceKeepsOk(p, o, paid, q);
  }

  lemma PaidInTimeShape(o: PaymentOrder, paidAt: Time)
    requires OrderOk(o) && o.status == PaymentOrders.PendingPayment
    ensures PayInTime(o, paidAt).Ok?
    ensures var q := PayInTime(o, paidAt).value;
      && q.principal == o.principal && q.fee == o.fee && q.refunds == o.refunds == []
      && q.status == Paid && !q.IsReleased() && OrderMargin(q) == o.principal && OrderMargin(o) == 0
  {
  }

  lemma PaidBackShape(o: PaymentOrder, paidAt: Time, key: RefundKey)
    requires OrderOk(o) && !o.IsPaid()
    ensures var q := PaidBack(o, paidAt, key);
      && o.refunds == [] && q.refunds == o.refunds + [q.refunds[0]] && q.refunds[0].key == key
      && q.IsPaid() && OrderMargin(o) == 0 && OrderMargin(q) >= 0
  {
    SingleRefund(PaidBack(o, paidAt, key));
  }

  // What a late payment does: nobody is seated and the captured amount goes back.
  lemma LateKeepsOk(p: Participation, o: nat, paidAt: Time)
    requires ParticipationOk(p) && o < |p.orders| && !p.orders[o].IsPaid()
    requires PaymentIsLate(p, p.orders[o], paidAt)
    ensures ApplySuccess(p, o, paidAt) == Ok(Success(p.(orders := p.orders[o := PaidBack(p.orders[o], paidAt, TimeoutKey(o))]), true, true))
    ensures var q := ApplySuccess(p, o, paidAt).value.participation;
      && ParticipationOk(q)
      && q.status == p.status && SeatOf(q) <= SeatOf(p) && q.orders[o].IsPaid()
      && MarginOf(q) >= MarginOf(p)
      && q.user == p.user && q.cases == p.cases
  {
    var order := p.orders[o];
    var key := TimeoutKey(o);
    LatePaymentKeepsOk(order, paidAt, key);
    PaidBackShape(order, paidAt, key);
    var back := PaidBack(order, paidAt, key);
    var paid := p.(orders := p.orders[o := PayLate(order, paidAt)]);
    assert FindKey(paid.orders, key).None? by {
      hide OrderOk, PaidBack, LateRefund;
      assert KeysOk(paid) by {
        forall k: nat, j: nat | k < |paid.orders| && j < |paid.orders[k].refunds|
          ensures KeyOk(paid, k, j)
        {
          assert KeyOk(p, k, j);
        }
      }
      NoRefundNoKey(paid, o, key);
    }
    var q := p.(orders := p.orders[o := back]);
    assert ApplySuccess(p, o, paidAt) == Ok(Success(q, true, true)) by {
      hide OrderOk, ParticipationOk, PaidBack;
      assert paid.orders[o := back] == q.orders;
      assert LateRefund(order, paidAt, key) == Ok(back);
    }
    assert ParticipationOk(q) && MarginOf(q) >= MarginOf(p) by {
      hide OrderOk, PaidBack, LateRefund, PayLate;
      assert KeyOk(q, o, 0);
      assert SeatOk(q);
      AddedKeepsOk(p, o, back, back.refunds[0], q);
    }
    hide OrderOk;
  }

  /** One channel success, whenever it comes and however often: it is never refused,
      and it either seats the participant or leaves the seats as they were. */
  lemma SuccessKeepsOk(p: Participation, o: nat, paidAt: Time)
    requires ParticipationOk(p) && o < |p.orders|
    ensures ApplySuccess(p, o, paidAt).Ok?
    ensures var s := ApplySuccess(p, o, paidAt).value;
      var q := s.participation;
      && ParticipationOk(q) && SeatOf(q) <= SeatOf(p) && MarginOf(q) >= MarginOf(p)
      && |q.orders| == |p.orders| && q.user == p.user && q.cases == p.cases
      && (s.changed ==> q.orders[o].IsPaid())
      && (!s.changed ==> q == p && !s.late)
      && (s.late ==> ActiveOf(q) == ActiveOf(p))
      && (s.changed && !s.late ==> HasOpen(p) && q.status == Active && ActiveOf(p) == 0)
  {
    hide OrderOk, ParticipationOk, PayLate, PayInTime, CreateRefund;
    if !p.orders[o].IsPaid() {
      if PaymentIsLate(p, p.orders[o], paidAt) {
        LateKeepsOk(p, o, paidAt);
      } else {
        InTimeKeepsOk(p, o, paidAt);
        InTimeChanged(p, o, paidAt);
      }
    }
  }

  lemma InTimeChanged(p: Participation, o: nat, paidAt: Time)
    requires ParticipationOk(p) && o < |p.orders| && !p.orders[o].IsPaid()
    requires !PaymentIsLate(p, p.orders[o], paidAt)
    ensures ApplySuccess(p, o, paidAt).Ok?
    ensures var s := ApplySuccess(p, o, paidAt).value;
      s.changed && !s.late && |s.participation.orders| == |p.orders| && s.participation.orders[o].status == Paid
  {
    PaidInTimeShape(p.orders[o], paidAt);
  }

  lemma PaidCompensatedOrderIsLate(p: Participation, o: nat)
    requires ParticipationOk(p) && o < |p.orders| && p.orders[o].IsPaid() && p.orders[o].compensation
    ensures HasCompensation(p.orders[o])
  {
    assert OrderOk(p.orders[o]);
    assert p.orders[o].refunds[0] in p.orders[o].refunds;
  }

  /** The compensation job never adds a second refund: it is either the late
      payment itself, or it changes nothing. */
  lemma CompensationIsTheLatePayment(p: Participation, o: nat, paidAt: Option<Time>)
    requires ParticipationOk(p) && o < |p.orders| && p.orders[o].compensation
    ensures Compensate(p, o, paidAt).Ok?
    ensures p.orders[o].status == Closed && paidAt.Some? ==> ApplySuccess(p, o, paidAt.value).Ok?
    ensures Compensate(p, o, paidAt).value ==
            if p.orders[o].status == Closed && paidAt.Some? then ApplySuccess(p, o, paidAt.value).value.participation else p
  {
    var order := p.orders[o];
    if order.IsPaid() {
      PaidCompensatedOrderIsLate(p, o);
    } else if order.status == Closed && paidAt.Some? {
      assert order.refunds == [] by { assert OrderOk(order); }
      LateKeepsOk(p, o, paidAt.value);
      var back := PaidBack(order, paidAt.value, TimeoutKey(o));
      assert HasCompensation(back) by { assert back.refunds[0] in back.refunds; }
      hide OrderOk, PaidBack, ParticipationOk;
    }
  }

  lemma CompensateKeepsOk(p: Participation, o: nat, paidAt: Option<Time>)
    requires ParticipationOk(p) && o < |p.orders| && p.orders[o].compensation
    ensures Compensate(p, o, paidAt).Ok?
    ensures var q := Compensate(p, o, paidAt).value;
      && ParticipationOk(q) && ActiveOf(q) == ActiveOf(p) && SeatOf(q) <= SeatOf(p) && MarginOf(q) >= MarginOf(p)
      && |q.orders| == |p.orders| && q.user == p.user && q.cases == p.cases
  {
    CompensationIsTheLatePayment(p, o, paidAt);
    hide OrderOk, ParticipationOk, PayLate, PayInTime, CreateRefund, Compensate, ApplySuccess;
    if p.orders[o].status == Closed && paidAt.Some? {
      SuccessKeepsOk(p, o, paidAt.value);
      LateIfClosed(p, o, paidAt.value);
    }
  }

  lemma LateIfClosed(p: Participation, o: nat, paidAt: Time)
    requires ParticipationOk(p) && o < |p.orders| && p.orders[o].status == Closed
    ensures ApplySuccess(p, o, paidAt).Ok? && ApplySuccess(p, o, paidAt).value.late
  {
    LateKeepsOk(p, o, paidAt);
  }

  // ----- cancellation -----

  lemma CloseAwaitingKeepsOk(p: Participation)
    requires ParticipationOk(p) && p.status == Awaiting
    ensures var q := CloseAwaiting(p);
      && ParticipationOk(q) && q.status == Cancelled && SeatOf(q) == 0 && MarginOf(q) == MarginOf(p)
      && |q.orders| == |p.orders| && q.user == p.user && q.cases == p.cases
  {
    hide OrderOk;
    var q := CloseAwaiting(p);
    var n := |p.orders| - 1;
    if HasOpen(p) {
      assert OpenOrder(p) == Some(n);
      assert OrderOk(Close(p.orders[n])) by { CloseKeepsOk(p.orders[n]); }
      ReplaceKeepsOk(p, n, Close(p.orders[n]), q);
    } else {
      assert OpenOrder(p).None?;
      assert q.orders == p.orders[n := p.orders[n]];
      ReplaceKeepsOk(p, n, p.orders[n], q);
    }
  }

  // A taken seat's order is the newest one: paid, and with nothing refunded.
  lemma SeatOrder(p: Participation)
    requires ParticipationOk(p) && p.status == Active
    ensures LatestRefundable(p) == Some(|p.orders| - 1)
    ensures Last(p).refunds == [] && Last(p).status == Paid && OrderOk(Last(p))
    ensures ReservedPrincipal(Last(p)) == 0 && ReservedFee(Last(p)) == 0
  {
    hide OrderOk;
    assert OrderIsRefundable(Last(p));
  }

  // Giving up a taken seat with one refund that is not a compensation.
  lemma LeaveSeatKeepsOk(p: Participation, key: RefundKey, principal: int, fee: int, retained: int, toOrganizer: bool, q: Participation)
    requires ParticipationOk(p) && p.status == Active
    requires key == SelfCancelKey(|p.orders| - 1) || (key.MassKey? && key.order == |p.orders| - 1)
    requires toOrganizer ==> key.SelfCancelKey? && retained == p.principal - principal
    requires var r := CreateRefund(p, |p.orders| - 1, key, principal, fee, retained, toOrganizer);
      r.Ok? && q.orders == r.value.participation.orders
    requires q.status == Cancelled && q.cases == p.cases && q.principal == p.principal && q.fee == p.fee
    ensures ParticipationOk(q) && SeatOf(q) == 0 && |q.orders| == |p.orders|
    ensures ReservedPrincipal(Last(q)) == principal && ReservedFee(Last(q)) == fee
    ensures 0 <= principal <= p.principal && 0 <= fee <= p.fee
  {
    var n := |p.orders| - 1;
    var order := p.orders[n];
    SeatOrder(p);
    NoRefundNoKey(p, n, key);
    var added := AddRefund(order, key, principal, fee, retained, toOrganizer).value;
    AddRefundKeepsOk(order, key, principal, fee, retained, toOrganizer);
    AddRefundSums(order, key, principal, fee, retained, toOrganizer);
    hide OrderOk;
    assert KeyOk(q, n, 0);
    AddedKeepsOk(p, n, added, added.refunds[0], q);
  }

  lemma SelfCancelKeepsOk(p: Participation, rules: seq<RefundRule>, startsAt: Time, now: Time)
    requires ParticipationOk(p) && SelfCancel(p, rules, startsAt, now).Ok?
    ensures var q := SelfCancel(p, rules, startsAt, now).value;
      && ParticipationOk(q) && q.status == Cancelled && SeatOf(q) <= SeatOf(p)
      && |q.orders| == |p.orders| && q.user == p.user && q.cases == p.cases
      && (p.status != Active ==> MarginOf(q) == MarginOf(p))
  {
    var q := SelfCancel(p, rules, startsAt, now).value;
    if p.status == Cancelled {
    } else if p.status == Awaiting {
      CloseAwaitingKeepsOk(p);
    } else {
      SeatOrder(p);
      var n := |p.orders| - 1;
      var rule := MatchRule(rules, startsAt - now);
      var principal := RoundPercent(p.principal, rule.principalPercent);
      var fee := RoundPercent(p.fee, rule.feePercent);
      var retained := p.principal - principal;
      hide OrderOk, ParticipationOk, RoundPercent;
      LeaveSeatKeepsOk(p, SelfCancelKey(n), principal, fee, retained, retained != 0, q);
    }
  }

  /** Cancelling everyone is never blocked by one participant, leaves no seat taken
      or reserved, and refunds a taken seat's order in full. */
  lemma MassCancelKeepsOk(p: Participation, kind: MassKind)
    requires ParticipationOk(p)
    ensures MassCancel(p, kind).Ok?
    ensures var q := MassCancel(p, kind).value;
      && ParticipationOk(q) && SeatOf(q) == 0
      && |q.orders| == |p.orders| && q.user == p.user && q.cases == p.cases
      && (p.status == Active ==> q.status == Cancelled && ReservedPrincipal(Last(q)) == p.principal && ReservedFee(Last(q)) == p.fee)
      && (p.status != Active ==> MarginOf(q) == MarginOf(p))
  {
    if p.status == Awaiting {
      CloseAwaitingKeepsOk(p);
    } else if p.status == Active {
      SeatOrder(p);
      MassRefundAccepted(p, kind);
      var n := |p.orders| - 1;
      var q := MassCancel(p, kind).value;
      hide OrderOk, ParticipationOk, CreateRefund;
      LeaveSeatKeepsOk(p, MassKey(kind, n), p.principal, p.fee, 0, false, q);
    }
  }

  lemma MassRefundAccepted(p: Participation, kind: MassKind)
    requires ParticipationOk(p) && p.status == Active
    ensures CreateRefund(p, |p.orders| - 1, MassKey(kind, |p.orders| - 1), p.principal, p.fee, 0, false).Ok?
  {
    SeatOrder(p);
    NoRefundNoKey(p, |p.orders| - 1, MassKey(kind, |p.orders| - 1));
  }

  // ----- after-sales -----

  // Cases that are not approved may change, and new ones may be added.
  lemma CaseChangeKeepsOk(p: Participation, q: Participation)
    requires ParticipationOk(p) && q.orders == p.orders && q.status == p.status && q.holdUntil == p.holdUntil
    requires q.principal == p.principal && q.fee == p.fee
    requires |q.cases| >= |p.cases|
    requires forall c :: 0 <= c < |p.cases| && p.cases[c].status == CaseApproved ==> q.cases[c] == p.cases[c]
    ensures ParticipationOk(q) && SeatOf(q) == SeatOf(p) && MarginOf(q) == MarginOf(p)
  {
    hide OrderOk;
    forall k: nat, j: nat | k < |q.orders| && j < |q.orders[k].refunds|
      ensures KeyOk(q, k, j)
    {
      assert KeyOk(p, k, j);
    }
  }

  lemma CreateCaseKeepsOk(p: Participation, staff: Option<(nat, nat)>)
    requires ParticipationOk(p) && CreateCase(p, staff).Ok?
    ensures var q := CreateCase(p, staff).value;
      && ParticipationOk(q) && ActiveOf(q) == ActiveOf(p) && SeatOf(q) == SeatOf(p) && MarginOf(q) == MarginOf(p)
      && q.orders == p.orders && q.user == p.user
  {
    hide OrderOk;
    CaseChangeKeepsOk(p, CreateCase(p, staff).value);
  }

  datatype Review = ReviewStart | ReviewEscalate | ReviewDecline

  function ReviewCase(p: Participation, c: nat, action: Review): Result<Participation>
    requires c < |p.cases|
  {
    match action
    case ReviewStart => StartReview(p, c)
    case ReviewEscalate => Escalate(p, c)
    case ReviewDecline => RejectCase(p, c)
  }

  lemma ReviewKeepsOk(p: Participation, c: nat, action: Review)
    requires ParticipationOk(p) && c < |p.cases| && ReviewCase(p, c, action).Ok?
    ensures var q := ReviewCase(p, c, action).value;
      && ParticipationOk(q) && ActiveOf(q) == ActiveOf(p) && SeatOf(q) == SeatOf(p) && MarginOf(q) == MarginOf(p)
      && q.orders == p.orders && q.user == p.user
  {
    hide OrderOk;
    CaseChangeKeepsOk(p, ReviewCase(p, c, action).value);
  }

  lemma UndecidedCaseHasNoRefund(p: Participation, c: nat)
    requires KeysOk(p) && c < |p.cases| && p.cases[c].status != CaseApproved
    ensures FindKey(p.orders, AfterSalesKey(c)).None?
  {
    forall k: nat, j: nat | k < |p.orders| && j < |p.orders[k].refunds|
      ensures p.orders[k].refunds[j].key != AfterSalesKey(c)
    {
      assert KeyOk(p, k, j);
    }
  }

  // An approval either passes the case on or adds exactly the approved refund to
  // the latest refundable order and gives up the seat.
  lemma ApproveKeepsOk(p: Participation, c: nat, principalGiven: Option<int>, feeGiven: Option<int>, authorised: bool)
    requires ParticipationOk(p) && c < |p.cases|
    requires ApproveCase(p, c, principalGiven, feeGiven, authorised).Ok?
    ensures var q := ApproveCase(p, c, principalGiven, feeGiven, authorised).value;
      && ParticipationOk(q) && SeatOf(q) <= SeatOf(p) && |q.orders| == |p.orders| && q.user == p.user
      && (q.status == Active ==> p.status == Active)
      && (q.cases[c].status == CaseApproved ==> q.status != Active)
  {
    var x := p.cases[c];
    var q := ApproveCase(p, c, principalGiven, feeGiven, authorised).value;
    if !authorised {
      hide OrderOk;
      CaseChangeKeepsOk(p, q);
    } else {
      var principal := if principalGiven.Some? then principalGiven.value else x.requestedPrincipal;
      var fee := if feeGiven.Some? then feeGiven.value else x.requestedFee;
      UndecidedCaseHasNoRefund(p, c);
      ApprovedKeepsOk(p, c, principal, fee, q);
    }
  }

  lemma ApprovedKeepsOk(p: Participation, c: nat, principal: int, fee: int, q: Participation)
    requires ParticipationOk(p) && c < |p.cases| && p.cases[c].status in {CasePending, CaseProcessing}
    requires LatestRefundable(p).Some? && FindKey(p.orders, AfterSalesKey(c)).None?
    requires var o := LatestRefundable(p).value;
      var r := CreateRefund(p, o, AfterSalesKey(c), principal, fee, 0, false);
      && r.Ok?
      && q.orders == r.value.participation.orders
      && q.cases == p.cases[c := p.cases[c].(status := CaseApproved, approvedPrincipal := principal, approvedFee := fee, refund := Some(r.value.ref))]
    requires q.status == (if p.status == Active then Cancelled else p.status)
    requires q.holdUntil == p.holdUntil && q.principal == p.principal && q.fee == p.fee
    ensures ParticipationOk(q) && SeatOf(q) <= SeatOf(p) && |q.orders| == |p.orders|
  {
    var o := LatestRefundable(p).value;
    var order := p.orders[o];
    var added := AddRefund(order, AfterSalesKey(c), principal, fee, 0, false).value;
    AddRefundKeepsOk(order, AfterSalesKey(c), principal, fee, 0, false);
    hide OrderOk, ParticipationOk;
    AfterSalesAdded(p, c, o, added, added.refunds[|order.refunds|], q);
  }

  lemma AfterSalesAdded(p: Participation, c: nat, o: nat, added: PaymentOrder, r: Refund, q: Participation)
    requires ParticipationOk(p) && c < |p.cases| && p.cases[c].status in {CasePending, CaseProcessing}
    requires o < |p.orders| && p.orders[o].IsPaid() && OrderOk(added)
    requires added.refunds == p.orders[o].refunds + [r] && r.key == AfterSalesKey(c)
    requires added.status == p.orders[o].status && added.principal == p.orders[o].principal && added.fee == p.orders[o].fee
    requires q.orders == p.orders[o := added] && |q.cases| == |p.cases|
    requires q.cases == p.cases[c := q.cases[c]] && q.cases[c].status == CaseApproved
    requires q.cases[c].refund == Some(RefundRef(o, |p.orders[o].refunds|))
    requires q.status == (if p.status == Active then Cancelled else p.status)
    requires q.holdUntil == p.holdUntil && q.principal == p.principal && q.fee == p.fee
    ensures ParticipationOk(q) && SeatOf(q) <= SeatOf(p)
  {
    hide OrderOk;
    assert KeyOk(q, o, |p.orders[o].refunds|);
    AddedKeepsOk(p, o, added, r, q);
  }

  // ----- progress of a refund -----

  predicate Stepped(o: PaymentOrder, r: nat, step: Progress, o': PaymentOrder)
    requires r < |o.refunds|
  {
    match step
    case TakeUp => TakeUpRefund(o, r) == Ok(o')
    case ChannelSucceeded => CompleteRefund(o, r) == Ok(o')
    case ChannelFailed => FailRefund(o, r) == Ok(o')
  }

  lemma SteppedKeepsOk(o: PaymentOrder, r: nat, step: Progress, o': PaymentOrder)
    requires OrderOk(o) && r < |o.refunds| && Stepped(o, r, step, o')
    ensures OrderOk(o')
  {
    TakeUpKeepsOk(o, r);
    CompletionKeepsOk(o, r);
    if step == ChannelFailed {
      FailKeepsOk(o, r);
    }
    hide OrderOk, TakeUpRefund, CompleteRefund, FailRefund;
  }

  lemma AdvanceShape(o: PaymentOrder, r: nat, step: Progress, o': PaymentOrder)
    requires StageOk(o) && r < |o.refunds| && Stepped(o, r, step, o')
    ensures SameKeys(o, o') && o'.IsPaid() && o.IsPaid() && o'.principal == o.principal && o'.fee == o.fee
    ensures OrderMargin(o') == OrderMargin(o)
    ensures ReservedPrincipal(o') == ReservedPrincipal(o) && ReservedFee(o') == ReservedFee(o)
  {
    ProgressRows(o, r, step, o');
    hide Stepped;
    ProgressSums(o.refunds, r, o'.refunds[r]);
  }

  // A step writes at most one refund row, and only its status and receipt.
  lemma ProgressRows(o: PaymentOrder, r: nat, step: Progress, o': PaymentOrder)
    requires StageOk(o) && r < |o.refunds|
    requires Stepped(o, r, step, o')
    ensures |o'.refunds| == |o.refunds| && o'.refunds == o.refunds[r := o'.refunds[r]] && SameMoney(o.refunds[r], o'.refunds[r])
    ensures o.IsPaid() && o'.IsPaid() && o'.principal == o.principal && o'.fee == o.fee && o'.paidAt == o.paidAt
  {
    hide Total;
  }

  lemma PutOrderKeepsOk(p: Participation, i: nat, o: PaymentOrder, q: Participation)
    requires ParticipationOk(p) && i < |p.orders| && OrderOk(o) && SameKeys(p.orders[i], o)
    requires p.orders[i].refunds != [] && p.orders[i].IsPaid() && o.IsPaid()
    requires o.principal == p.orders[i].principal && o.fee == p.orders[i].fee
    requires q == p.(orders := p.orders[i := o])
    ensures ParticipationOk(q) && SeatOf(q) == SeatOf(p)
    ensures MarginOf(q) == MarginOf(p) - OrderMargin(p.orders[i]) + OrderMargin(o)
  {
    hide OrderOk, OrderMargin;
    assert p.status == Active ==> i != |p.orders| - 1;
    ReplaceKeepsOk(p, i, o, q);
  }

  /** A reserved refund can always be carried out: whatever the channel answers,
      recording it is never refused for money, and no seat or reservation changes. */
  lemma AdvanceKeepsOk(p: Participation, ref: RefundRef, step: Progress)
    requires ParticipationOk(p) && RefExists(p, ref)
    ensures step != ChannelFailed ==> Participations.Advance(p, ref, step).Ok?
    ensures var r := Participations.Advance(p, ref, step); r.Ok? ==>
      var q := r.value;
      && ParticipationOk(q) && ActiveOf(q) == ActiveOf(p) && SeatOf(q) == SeatOf(p) && MarginOf(q) == MarginOf(p)
      && |q.orders| == |p.orders| && q.user == p.user && q.cases == p.cases
  {
    var o := p.orders[ref.order];
    assert OrderOk(o);
    TakeUpKeepsOk(o, ref.refund);
    CompletionKeepsOk(o, ref.refund);
    var r := Participations.Advance(p, ref, step);
    if r.Ok? {
      var o' := r.value.orders[ref.order];
      assert Stepped(o, ref.refund, step, o');
      SteppedKeepsOk(o, ref.refund, step, o');
      AdvanceShape(o, ref.refund, step, o');
      hide OrderOk, ParticipationOk, Stepped, TakeUpRefund, CompleteRefund, FailRefund, OrderMargin;
      PutOrderKeepsOk(p, ref.order, o', r.value);
    }
  }
}
