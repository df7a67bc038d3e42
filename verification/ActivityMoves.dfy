/** Every call changes each payment order by at most one of the moves of `OrderMoves`,
    and the only new orders are open ones. */
module ActivityMoves {
  import opened Wrappers
  import opened Totals
  import opened WalletAllocations
  import opened PaymentOrders
  import opened OrderInvariants
  import opened OrderMoves
  import opened Participations
  import opened ParticipationInvariants
  import opened Settlements
  import opened Activities
  import opened ActivityInvariants
  import opened ActivitySteps

  // An order as it is first written.
  predicate IsNew(o: PaymentOrder, principal: nat, fee: nat) {
    && o.principal == principal && o.fee == fee
    && o.status == PaymentOrders.PendingPayment && o.refunds == [] && o.paidAt.None? && o.allocation.None? && !o.compensation
  }

  // `steady`: the channel takes no answer back in this call.
  ghost predicate OrderMoved(o: PaymentOrder, o': PaymentOrder, steady: bool) {
    exists m :: Applies(m, o, o') && (steady ==> Consistent(m, o))
  }

  ghost predicate RowMoved(p: Participation, q: Participation, principal: nat, fee: nat, steady: bool) {
    && q.user == p.user
    && |p.orders| <= |q.orders|
    && (forall k :: 0 <= k < |p.orders| ==> OrderMoved(p.orders[k], q.orders[k], steady))
    && (forall k :: |p.orders| <= k < |q.orders| ==> IsNew(q.orders[k], principal, fee))
  }

  predicate RowIsNew(q: Participation, principal: nat, fee: nat) {
    forall k :: 0 <= k < |q.orders| ==> IsNew(q.orders[k], principal, fee)
  }

  ghost predicate BookMoved(b: Book, b': Book, steady: bool) {
    && b'.terms == b.terms
    && |b.participations| <= |b'.participations|
    && (forall i :: 0 <= i < |b.participations| ==>
          RowMoved(b.participations[i], b'.participations[i], b.terms.principal, b.terms.fee, steady))
    && (forall i :: |b.participations| <= i < |b'.participations| ==>
          RowIsNew(b'.participations[i], b.terms.principal, b.terms.fee))
  }

  lemma StayMoves(o: PaymentOrder, steady: bool)
    ensures OrderMoved(o, o, steady)
  {
    assert Applies(Stay, o, o) && Consistent(Stay, o);
  }

  lemma SameOrdersMove(p: Participation, q: Participation, principal: nat, fee: nat, steady: bool)
    requires q.user == p.user && q.orders == p.orders
    ensures RowMoved(p, q, principal, fee, steady)
  {
    forall k | 0 <= k < |p.orders|
      ensures OrderMoved(p.orders[k], q.orders[k], steady)
    {
      StayMoves(p.orders[k], steady);
    }
  }

  lemma OneOrderMoves(p: Participation, q: Participation, i: nat, m: Move, principal: nat, fee: nat, steady: bool)
    requires i < |p.orders| && q.user == p.user && |q.orders| == |p.orders|
    requires q.orders == p.orders[i := q.orders[i]]
    requires Applies(m, p.orders[i], q.orders[i]) && (steady ==> Consistent(m, p.orders[i]))
    ensures RowMoved(p, q, principal, fee, steady)
  {
    hide Applies, Consistent;
    forall k | 0 <= k < |p.orders|
      ensures OrderMoved(p.orders[k], q.orders[k], steady)
    {
      if k != i {
        StayMoves(p.orders[k], steady);
      }
    }
  }

  lemma OneRowMoves(b: Book, i: nat, q: Participation, steady: bool)
    requires i < |b.participations|
    requires RowMoved(b.participations[i], q, b.terms.principal, b.terms.fee, steady)
    ensures BookMoved(b, Put(b, i, q), steady)
  {
    hide RowMoved;
    forall k | 0 <= k < |b.participations|
      ensures RowMoved(b.participations[k], Put(b, i, q).participations[k], b.terms.principal, b.terms.fee, steady)
    {
      if k != i {
        SameOrdersMove(b.participations[k], b.participations[k], b.terms.principal, b.terms.fee, steady);
      }
    }
  }

  lemma SameRowsMove(b: Book, b': Book, steady: bool)
    requires b'.terms == b.terms && b'.participations == b.participations
    ensures BookMoved(b, b', steady)
  {
    hide RowMoved;
    forall k | 0 <= k < |b.participations|
      ensures RowMoved(b.participations[k], b'.participations[k], b.terms.principal, b.terms.fee, steady)
    {
      SameOrdersMove(b.participations[k], b.participations[k], b.terms.principal, b.terms.fee, steady);
    }
  }

  // ----- one participation -----

  lemma ExpireOneMoves(p: Participation, o: nat, principal: nat, fee: nat, now: Time)
    requires o < |p.orders|
    ensures RowMoved(p, ExpireOne(p, o, now), principal, fee, true)
  {
    var q := ExpireOne(p, o, now);
    if IsDue(p.orders[o], now) {
      OneOrderMoves(p, q, o, CloseMove, principal, fee, true);
    } else {
      SameOrdersMove(p, q, principal, fee, true);
    }
  }

  lemma ExpireDueMoves(p: Participation, principal: nat, fee: nat, now: Time)
    requires ParticipationOk(p)
    ensures RowMoved(p, ExpireDue(p, now), principal, fee, true)
  {
    SweepIsLast(p, |p.orders|, now);
    ExpireOneMoves(p, |p.orders| - 1, principal, fee, now);
  }

  lemma SuccessMoves(p: Participation, o: nat, paidAt: Time, principal: nat, fee: nat)
    requires ParticipationOk(p) && o < |p.orders| && ApplySuccess(p, o, paidAt).Ok?
    ensures RowMoved(p, ApplySuccess(p, o, paidAt).value.participation, principal, fee, true)
  {
    var q := ApplySuccess(p, o, paidAt).value.participation;
    if p.orders[o].IsPaid() {
      SameOrdersMove(p, q, principal, fee, true);
    } else if PaymentIsLate(p, p.orders[o], paidAt) {
      LateKeepsOk(p, o, paidAt);
      hide ApplySuccess, ParticipationOk, PaidBack;
      OneOrderMoves(p, q, o, LateMove(paidAt, TimeoutKey(o)), principal, fee, true);
    } else {
      hide ParticipationOk;
      OneOrderMoves(p, q, o, InTimeMove(paidAt), principal, fee, true);
    }
  }

  lemma CompensateMoves(p: Participation, o: nat, answer: Option<Time>, principal: nat, fee: nat)
    requires ParticipationOk(p) && o < |p.orders| && Compensate(p, o, answer).Ok?
    ensures RowMoved(p, Compensate(p, o, answer).value, principal, fee, true)
  {
    assert p.orders[o].compensation;
    hide ParticipationOk, ApplySuccess, Compensate, RowMoved;
    CompensationIsTheLatePayment(p, o, answer);
    if p.orders[o].status == Closed && answer.Some? {
      SuccessMoves(p, o, answer.value, principal, fee);
    } else {
      SameOrdersMove(p, p, principal, fee, true);
    }
  }

  lemma CloseAwaitingMoves(p: Participation, principal: nat, fee: nat)
    ensures RowMoved(p, CloseAwaiting(p), principal, fee, true)
  {
    var q := CloseAwaiting(p);
    if OpenOrder(p).Some? {
      OneOrderMoves(p, q, OpenOrder(p).value, CloseMove, principal, fee, true);
    } else {
      SameOrdersMove(p, q, principal, fee, true);
    }
  }

  // A refund of a taken seat's order, or one on an order with nothing unfinished.
  lemma CreateRefundMoves(
    p: Participation, o: nat, key: RefundKey, rp: int, rf: int, retained: int, toOrganizer: bool, q: Participation, principal: nat, fee: nat
  )
    requires o < |p.orders| && p.orders[o].IsPaid() && !key.TimeoutKey? && FindKey(p.orders, key).None?
    requires Total(p.orders[o].refunds, UnfinishedOf) == 0
    requires var r := CreateRefund(p, o, key, rp, rf, retained, toOrganizer); r.Ok? && q.orders == r.value.participation.orders
    requires q.user == p.user
    ensures RowMoved(p, q, principal, fee, true)
  {
    hide AddRefund, Total;
    OneOrderMoves(p, q, o, RefundMove(key, rp, rf, retained, toOrganizer), principal, fee, true);
  }

  lemma SelfCancelMoves(p: Participation, rules: seq<RefundRule>, startsAt: Time, now: Time, principal: nat, fee: nat)
    requires ParticipationOk(p) && SelfCancel(p, rules, startsAt, now).Ok?
    ensures RowMoved(p, SelfCancel(p, rules, startsAt, now).value, principal, fee, true)
  {
    hide ParticipationOk, RowMoved, RoundPercent, MatchRule, HasUndecidedCase, CreateRefund;
    if p.status == Participations.Cancelled {
      SameOrdersMove(p, p, principal, fee, true);
    } else if p.status == Awaiting {
      CloseAwaitingMoves(p, principal, fee);
    } else {
      RuleRefundMoves(p, rules, startsAt, now, principal, fee);
    }
  }

  lemma RuleRefundMoves(p: Participation, rules: seq<RefundRule>, startsAt: Time, now: Time, principal: nat, fee: nat)
    requires ParticipationOk(p) && p.status == Active && SelfCancel(p, rules, startsAt, now).Ok?
    ensures RowMoved(p, SelfCancel(p, rules, startsAt, now).value, principal, fee, true)
  {
    hide RoundPercent, MatchRule, HasUndecidedCase, CreateRefund, FindKey, OrderOk, RowMoved;
    var n := |p.orders| - 1;
    SeatOrder(p);
    NoRefundNoKey(p, n, SelfCancelKey(n));
    SelfCancelKeepsOk(p, rules, startsAt, now);
    hide ParticipationOk, Newest;
    var rule := MatchRule(rules, startsAt - now);
    var rp := RoundPercent(p.principal, rule.principalPercent);
    var rf := RoundPercent(p.fee, rule.feePercent);
    var q := SelfCancel(p, rules, startsAt, now).value;
    CreateRefundMoves(p, n, SelfCancelKey(n), rp, rf, p.principal - rp, p.principal - rp != 0, q, principal, fee);
  }

  lemma MassCancelMoves(p: Participation, kind: MassKind, principal: nat, fee: nat)
    requires ParticipationOk(p) && MassCancel(p, kind).Ok?
    ensures RowMoved(p, MassCancel(p, kind).value, principal, fee, true)
  {
    hide ParticipationOk, RowMoved;
    if p.status == Awaiting {
      CloseAwaitingMoves(p, principal, fee);
    } else if p.status == Active {
      SeatRefundMoves(p, kind, principal, fee);
    } else {
      SameOrdersMove(p, p, principal, fee, true);
    }
  }

  lemma SeatRefundMoves(p: Participation, kind: MassKind, principal: nat, fee: nat)
    requires ParticipationOk(p) && p.status == Active && MassCancel(p, kind).Ok?
    ensures RowMoved(p, MassCancel(p, kind).value, principal, fee, true)
  {
    var q := MassCancel(p, kind).value;
    var n := |p.orders| - 1;
    SeatOrder(p);
    NoRefundNoKey(p, n, MassKey(kind, n));
    assert Last(p).principal == p.principal && Last(p).fee == p.fee;
    hide ParticipationOk, OrderOk, CreateRefund, FindKey, Newest;
    CreateRefundMoves(p, n, MassKey(kind, n), p.principal, p.fee, 0, false, q, principal, fee);
  }

  lemma ApproveMoves(p: Participation, c: nat, given: Option<int>, feeGiven: Option<int>, authorised: bool, principal: nat, fee: nat)
    requires ParticipationOk(p) && c < |p.cases| && ApproveCase(p, c, given, feeGiven, authorised).Ok?
    ensures RowMoved(p, ApproveCase(p, c, given, feeGiven, authorised).value, principal, fee, true)
  {
    var x := p.cases[c];
    var q := ApproveCase(p, c, given, feeGiven, authorised).value;
    if !authorised {
      SameOrdersMove(p, q, principal, fee, true);
    } else {
      var rp := if given.Some? then given.value else x.requestedPrincipal;
      var rf := if feeGiven.Some? then feeGiven.value else x.requestedFee;
      var o := LatestRefundable(p).value;
      UndecidedCaseHasNoRefund(p, c);
      hide ParticipationOk, OrderOk, CreateRefund, FindKey, Newest;
      CreateRefundMoves(p, o, AfterSalesKey(c), rp, rf, 0, false, q, principal, fee);
    }
  }

  predicate TakesBack(p: Participation, ref: RefundRef, step: Progress)
    requires RefExists(p, ref)
  {
    step == ChannelFailed && p.orders[ref.order].refunds[ref.refund].status == RefundSucceeded
  }

  lemma AdvanceMoves(p: Participation, ref: RefundRef, step: Progress, principal: nat, fee: nat)
    requires RefExists(p, ref) && Participations.Advance(p, ref, step).Ok?
    ensures RowMoved(p, Participations.Advance(p, ref, step).value, principal, fee, !TakesBack(p, ref, step))
  {
    var q := Participations.Advance(p, ref, step).value;
    assert Stepped(p.orders[ref.order], ref.refund, step, q.orders[ref.order]);
    hide TakeUpRefund, CompleteRefund, FailRefund, Stepped;
    OneOrderMoves(p, q, ref.order, ProgressMove(ref.refund, step), principal, fee, !TakesBack(p, ref, step));
  }

  // ----- the book -----

  // The environment's promise: no failure is reported for a refund that succeeded.
  predicate SteadyCall(b: Book, c: Call) {
    c.RefundCall? && c.row < |b.participations| && RefExists(b.participations[c.row], c.ref) ==>
      !TakesBack(b.participations[c.row], c.ref, c.step)
  }

  lemma {:induction false} SweepMoves(ps: seq<Participation>, principal: nat, fee: nat, now: Time)
    requires RowsOk(ps)
    ensures forall i :: 0 <= i < |ps| ==> RowMoved(ps[i], ExpireRows(ps, now)[i], principal, fee, true)
  {
    hide ParticipationOk, RowMoved;
    if ps != [] {
      var n := |ps| - 1;
      assert RowsOk(ps[..n]);
      SweepMoves(ps[..n], principal, fee, now);
      assert ParticipationOk(ps[n]);
      ExpireDueMoves(ps[n], principal, fee, now);
    }
  }

  lemma SweepBookMoves(b: Book, now: Time)
    requires RowsOk(b.participations)
    ensures BookMoved(b, ExpireAll(b, now), true)
  {
    hide RowMoved;
    SweepMoves(b.participations, b.terms.principal, b.terms.fee, now);
  }

  // A move by the sweep leaves a participation that signs up again with old orders only moved.
  lemma MoveThenSignUp(p: Participation, q: Participation, principal: nat, fee: nat, expiresAt: Time)
    requires RowMoved(p, q, principal, fee, true)
    ensures RowMoved(p, SignUpAgain(q, principal, fee, expiresAt), principal, fee, true)
  {
    hide OrderMoved;
  }

  // After the sweep, one row signs up again.
  lemma RowSignsUpAgain(b: Book, swept: Book, i: nat, expiresAt: Time)
    requires BookMoved(b, swept, true) && |swept.participations| == |b.participations| && i < |b.participations|
    ensures BookMoved(b, Put(swept, i, SignUpAgain(swept.participations[i], b.terms.principal, b.terms.fee, expiresAt)), true)
  {
    hide RowMoved, SignUpAgain;
    MoveThenSignUp(b.participations[i], swept.participations[i], b.terms.principal, b.terms.fee, expiresAt);
  }

  // After the sweep, a new row signs up.
  lemma RowSignsUp(b: Book, swept: Book, user: nat, expiresAt: Time)
    requires BookMoved(b, swept, true) && |swept.participations| == |b.participations|
    ensures BookMoved(b, swept.(participations := swept.participations + [NewParticipation(user, b.terms.principal, b.terms.fee, expiresAt)]), true)
  {
    hide RowMoved, NewParticipation;
    NewRowIsNew(user, b.terms.principal, b.terms.fee, expiresAt);
  }

  lemma SignUpMoves(b: Book, t: Time, user: nat, eligible: bool, cityOpen: bool, timeout: nat, now: Time)
    requires BookOk(b, t) && SignUp(b, user, eligible, cityOpen, timeout, now).Ok?
    ensures BookMoved(b, SignUp(b, user, eligible, cityOpen, timeout, now).value, true)
  {
    SweepBookMoves(b, now);
    var swept := ExpireAll(b, now);
    assert |swept.participations| == |b.participations|;
    hide BookOk, BookMoved, FindUser, HasLiveOrder, HasRefundable, SignUpAgain, NewParticipation, OccupiedCount, ExpireAll;
    var found := FindUser(swept.participations, user);
    if found.Some? {
      RowSignsUpAgain(b, swept, found.value, now + timeout);
    } else {
      RowSignsUp(b, swept, user, now + timeout);
    }
  }

  lemma NewRowIsNew(user: nat, principal: nat, fee: nat, expiresAt: Time)
    ensures RowIsNew(NewParticipation(user, principal, fee, expiresAt), principal, fee)
  {
  }

  lemma OpenPaymentMoves(b: Book, t: Time, user: nat, available: nat, externalOnly: bool, now: Time)
    requires BookOk(b, t) && OpenPayment(b, user, available, externalOnly, now).Ok?
    ensures BookMoved(b, OpenPayment(b, user, available, externalOnly, now).value, true)
  {
    hide BookOk, ParticipationOk, OpenSession, RecordSuccess, RowMoved, BookMoved, FindUser;
    var i := FindUser(b.participations, user).value;
    var p := b.participations[i];
    RowOf(b, t, i);
    var n := |p.orders| - 1;
    var order := OpenSession(p.orders[n], available, externalOnly, now).value;
    var q := p.(orders := p.orders[n := order]);
    if order.allocation.Some? && order.allocation.value.external == 0 {
      WalletBookMoves(b, i, available, externalOnly, now);
    } else {
      OneOrderMoves(p, q, n, SessionMove(available, externalOnly, now), b.terms.principal, b.terms.fee, true);
      OneRowMoves(b, i, q, true);
    }
  }

  // The wallet covers the whole amount: the session pays at once.
  lemma WalletBookMoves(b: Book, i: nat, available: nat, externalOnly: bool, now: Time)
    requires i < |b.participations| && ParticipationOk(b.participations[i])
    requires OpenSession(Last(b.participations[i]), available, externalOnly, now).Ok?
    ensures var p := b.participations[i];
      var q := p.(orders := p.orders[|p.orders| - 1 := OpenSession(Last(p), available, externalOnly, now).value]);
      var r := RecordSuccess(Put(b, i, q), i, |p.orders| - 1, now, now);
      r.Ok? ==> BookMoved(b, r.value, true)
  {
    var p := b.participations[i];
    var n := |p.orders| - 1;
    var q := p.(orders := p.orders[n := OpenSession(Last(p), available, externalOnly, now).value]);
    hide OpenSession, ApplySuccess, ParticipationOk, RowMoved, BookMoved, Sync;
    var r := RecordSuccess(Put(b, i, q), i, n, now, now);
    if r.Ok? {
      OpenedOrder(Last(p), available, externalOnly, now);
      var s := ApplySuccess(q, n, now).value;
      WalletPaymentMoves(p, available, externalOnly, now, s.participation, b.terms.principal, b.terms.fee);
      OneRowMoves(b, i, s.participation, true);
      SyncFrame(Put(Put(b, i, q), i, s.participation), now);
      assert r.value.participations == b.participations[i := s.participation];
      SameRowsAfter(b, Put(b, i, s.participation), r.value, true);
    }
  }

  lemma OpenedOrder(o: PaymentOrder, available: nat, externalOnly: bool, now: Time)
    requires OpenSession(o, available, externalOnly, now).Ok?
    ensures var order := OpenSession(o, available, externalOnly, now).value; !order.IsPaid() && order.expiresAt > now
  {
  }

  lemma WalletPaymentMoves(p: Participation, available: nat, externalOnly: bool, now: Time, q: Participation, principal: nat, fee: nat)
    requires ParticipationOk(p) && OpenSession(Last(p), available, externalOnly, now).Ok?
    requires var mid := p.(orders := p.orders[|p.orders| - 1 := OpenSession(Last(p), available, externalOnly, now).value]);
      var s := ApplySuccess(mid, |p.orders| - 1, now); s.Ok? && q == s.value.participation
    ensures RowMoved(p, q, principal, fee, true)
  {
    var n := |p.orders| - 1;
    var order := OpenSession(Last(p), available, externalOnly, now).value;
    assert p.status == Awaiting && order.status == PaymentOrders.PendingPayment && order.expiresAt > now;
    hide OrderOk, KeysOk, OpenSession, CreateRefund, PayLate;
    assert PayInTime(order, now) == Ok(q.orders[n]);
    OneOrderMoves(p, q, n, WalletMove(available, externalOnly, now), principal, fee, true);
  }

  lemma {:induction false} CancelRowsMove(ps: seq<Participation>, kind: MassKind, principal: nat, fee: nat)
    requires RowsOk(ps)
    ensures CancelRows(ps, kind).Ok?
    ensures forall i :: 0 <= i < |ps| ==> RowMoved(ps[i], CancelRows(ps, kind).value[i], principal, fee, true)
  {
    hide ParticipationOk, RowMoved, MassCancel;
    CancelRowsOk(ps, kind);
    forall i | 0 <= i < |ps|
      ensures RowMoved(ps[i], CancelRows(ps, kind).value[i], principal, fee, true)
    {
      assert ParticipationOk(ps[i]);
      MassCancelMoves(ps[i], kind, principal, fee);
    }
  }

  lemma CancelEverythingMoves(b: Book, kind: MassKind, principal: int, fee: int, status: ActivityStatus)
    requires RowsOk(b.participations) && CancelEverything(b, kind, principal, fee, status).Ok?
    ensures BookMoved(b, CancelEverything(b, kind, principal, fee, status).value, true)
  {
    hide RowMoved, CancelRows, RefundPublish;
    CancelRowsMove(b.participations, kind, b.terms.principal, b.terms.fee);
  }

  // The same rows under another status, payment record or settlement.
  lemma SameRowsAfter(b: Book, b1: Book, b2: Book, steady: bool)
    requires BookMoved(b, b1, steady) && b2.participations == b1.participations && b2.terms == b1.terms
    ensures BookMoved(b, b2, steady)
  {
    hide RowMoved, RowIsNew;
  }

  lemma SyncFrame(b: Book, now: Time)
    ensures Sync(b, now).participations == b.participations && Sync(b, now).terms == b.terms && Sync(b, now).publish == b.publish
  {
  }

  lemma ReleaseFrame(b: Book, now: Time)
    ensures ReleaseAfterSales(b, now).participations == b.participations && ReleaseAfterSales(b, now).terms == b.terms
    ensures ReleaseAfterSales(b, now).status == b.status && ReleaseAfterSales(b, now).publish == b.publish
  {
  }

  lemma FreezeFrame(b: Book, periods: Periods)
    requires FreezeForAfterSales(b, periods).Ok?
    ensures var b' := FreezeForAfterSales(b, periods).value;
      b'.participations == b.participations && b'.terms == b.terms && b'.status == b.status && b'.publish == b.publish
  {
    hide Calculate, AnyOpenCase;
  }

  lemma AdvanceFrame(b: Book, now: Time)
    requires AdvanceSettlement(b, now).Ok?
    ensures var b' := AdvanceSettlement(b, now).value;
      b'.participations == b.participations && b'.terms == b.terms && b'.status == b.status && b'.publish == b.publish
  {
    hide Calculate, AnyOpenCase;
  }

  lemma RecordSuccessMoves(b: Book, t: Time, i: nat, o: nat, paidAt: Time, now: Time)
    requires BookOk(b, t) && RecordSuccess(b, i, o, paidAt, now).Ok?
    ensures BookMoved(b, RecordSuccess(b, i, o, paidAt, now).value, true)
  {
    var p := b.participations[i];
    assert ParticipationOk(p);
    hide BookOk, ParticipationOk, ApplySuccess, RowMoved, BookMoved, Sync;
    SuccessMoves(p, o, paidAt, b.terms.principal, b.terms.fee);
    var q := ApplySuccess(p, o, paidAt).value.participation;
    OneRowMoves(b, i, q, true);
    SyncFrame(Put(b, i, q), now);
    SameRowsAfter(b, Put(b, i, q), RecordSuccess(b, i, o, paidAt, now).value, true);
  }

  lemma CancelOwnMoves(b: Book, t: Time, user: nat, now: Time)
    requires BookOk(b, t) && CancelOwn(b, user, now).Ok?
    ensures BookMoved(b, CancelOwn(b, user, now).value, true)
  {
    var i := FindUser(b.participations, user).value;
    var p := b.participations[i];
    assert ParticipationOk(p);
    hide BookOk, ParticipationOk, SelfCancel, RowMoved, BookMoved, Sync, FindUser;
    SelfCancelMoves(p, b.terms.rules, b.terms.startsAt, now, b.terms.principal, b.terms.fee);
    var q := SelfCancel(p, b.terms.rules, b.terms.startsAt, now).value;
    OneRowMoves(b, i, q, true);
    SyncFrame(Put(b, i, q), now);
    SameRowsAfter(b, Put(b, i, q), CancelOwn(b, user, now).value, true);
  }

  lemma CompensationTaskMoves(b: Book, t: Time, i: nat, o: nat, answer: Option<Time>, now: Time)
    requires BookOk(b, t) && CompensationTask(b, i, o, answer, now).Ok?
    ensures BookMoved(b, CompensationTask(b, i, o, answer, now).value, true)
  {
    var p := b.participations[i];
    assert ParticipationOk(p);
    hide BookOk, ParticipationOk, Compensate, RowMoved, BookMoved;
    CompensateMoves(p, o, answer, b.terms.principal, b.terms.fee);
    OneRowMoves(b, i, Compensate(p, o, answer).value, true);
  }

  lemma CaseCallMoves(b: Book, i: nat, q: Participation, b': Book)
    requires i < |b.participations| && q.orders == b.participations[i].orders && q.user == b.participations[i].user
    requires b'.participations == b.participations[i := q] && b'.terms == b.terms
    ensures BookMoved(b, b', true)
  {
    hide RowMoved, BookMoved;
    SameOrdersMove(b.participations[i], q, b.terms.principal, b.terms.fee, true);
    OneRowMoves(b, i, q, true);
    SameRowsAfter(b, Put(b, i, q), b', true);
  }

  lemma RegisterCaseMoves(b: Book, user: nat, staff: Option<(nat, nat)>, periods: Periods)
    requires RegisterCase(b, user, staff, periods).Ok?
    ensures BookMoved(b, RegisterCase(b, user, staff, periods).value, true)
  {
    var i := FindUser(b.participations, user).value;
    var p := b.participations[i];
    hide BookMoved, FindUser, FreezeForAfterSales, HasOpenCase, Total;
    var b' := RegisterCase(b, user, staff, periods).value;
    if HasOpenCase(p) {
      SameRowsMove(b, b', true);
    } else {
      var q := CreateCase(p, staff).value;
      FreezeFrame(Put(b, i, q), periods);
      CaseCallMoves(b, i, q, b');
    }
  }

  lemma ApproveCallMoves(b: Book, t: Time, i: nat, c: nat, principal: Option<int>, fee: Option<int>, authorised: bool, now: Time)
    requires BookOk(b, t) && Approve(b, i, c, principal, fee, authorised, now).Ok?
    ensures BookMoved(b, Approve(b, i, c, principal, fee, authorised, now).value, true)
  {
    var p := b.participations[i];
    assert ParticipationOk(p);
    hide BookOk, ParticipationOk, ApproveCase, RowMoved, BookMoved, Sync, ReleaseAfterSales;
    ApproveMoves(p, c, principal, fee, authorised, b.terms.principal, b.terms.fee);
    var q := ApproveCase(p, c, principal, fee, authorised).value;
    OneRowMoves(b, i, q, true);
    var b' := Put(b, i, q);
    SyncFrame(b', now);
    ReleaseFrame(b', now);
    ReleaseFrame(Sync(b', now), now);
    SameRowsAfter(b, b', Approve(b, i, c, principal, fee, authorised, now).value, true);
  }

  lemma RefundProgressMoves(b: Book, i: nat, ref: RefundRef, step: Progress, at: Time)
    requires RefundProgress(b, i, ref, step, at).Ok?
    ensures BookMoved(b, RefundProgress(b, i, ref, step, at).value, !TakesBack(b.participations[i], ref, step))
  {
    var p := b.participations[i];
    hide Advance, RowMoved, BookMoved, ReleaseAfterSales, TakesBack;
    AdvanceMoves(p, ref, step, b.terms.principal, b.terms.fee);
    var q := Participations.Advance(p, ref, step).value;
    OneRowMoves(b, i, q, !TakesBack(p, ref, step));
    ReleaseFrame(Put(b, i, q), at);
    SameRowsAfter(b, Put(b, i, q), RefundProgress(b, i, ref, step, at).value, !TakesBack(p, ref, step));
  }

  lemma CancelCallsMove(b: Book, t: Time, now: Time)
    requires BookOk(b, t)
    ensures CancelByOrganizer(b, now).Ok? ==> BookMoved(b, CancelByOrganizer(b, now).value, true)
    ensures CancelByAdmin(b).Ok? ==> BookMoved(b, CancelByAdmin(b).value, true)
    ensures FailUnformed(b, now).Ok? ==> BookMoved(b, FailUnformed(b, now).value, true)
  {
    hide BookMoved, CancelEverything, Total, RoundPercent;
    if CancelByOrganizer(b, now).Ok? {
      CancelEverythingMoves(b, OrganizerCancellation,
        if now - b.publishedAt <= 12 * 3600 || b.terms.startsAt - now >= 6 * 3600 then b.publish.principal else RoundPercent(b.publish.principal, 70),
        if now - b.publishedAt <= 12 * 3600 then b.publish.fee else 0, CalledOff);
    }
    if CancelByAdmin(b).Ok? {
      CancelEverythingMoves(b, AdminCancellation, b.publish.principal, b.publish.fee, CalledOff);
    }
    if FailUnformed(b, now).Ok? {
      if CancelEverything(b, FailedToForm, b.publish.principal, b.publish.fee, NotFormed) == FailUnformed(b, now) {
        CancelEverythingMoves(b, FailedToForm, b.publish.principal, b.publish.fee, NotFormed);
      } else {
        SameRowsMove(b, FailUnformed(b, now).value, true);
      }
    }
  }

  lemma SettlementCallsMove(b: Book, periods: Periods, now: Time)
    ensures EnsureSettlement(b, periods).Ok? ==> BookMoved(b, EnsureSettlement(b, periods).value, true)
    ensures AdvanceSettlement(b, now).Ok? ==> BookMoved(b, AdvanceSettlement(b, now).value, true)
    ensures FreezeByAdmin(b).Ok? ==> BookMoved(b, FreezeByAdmin(b).value, true)
    ensures ReleaseByAdmin(b, now).Ok? ==> BookMoved(b, ReleaseByAdmin(b, now).value, true)
    ensures SettleByAdmin(b, now).Ok? ==> BookMoved(b, SettleByAdmin(b, now).value, true)
  {
    hide BookMoved, Calculate, AnyOpenCase, AnyUndecidedCase, AdvanceSettlement;
    if EnsureSettlement(b, periods).Ok? {
      SameRowsMove(b, EnsureSettlement(b, periods).value, true);
    }
    if AdvanceSettlement(b, now).Ok? {
      AdvanceFrame(b, now);
      SameRowsMove(b, AdvanceSettlement(b, now).value, true);
    }
    if FreezeByAdmin(b).Ok? {
      SameRowsMove(b, FreezeByAdmin(b).value, true);
    }
    if ReleaseByAdmin(b, now).Ok? {
      AdvanceFrame(b.(settlement := Some(Thawed(b.settlement.value, now))), now);
      SameRowsMove(b, ReleaseByAdmin(b, now).value, true);
    }
  }

  lemma ReviewCallsMove(b: Book, guards: bool, now: Time)
    ensures ReviewApprove(b, guards, now).Ok? ==> BookMoved(b, ReviewApprove(b, guards, now).value, true)
    ensures ReviewReject(b).Ok? ==> BookMoved(b, ReviewReject(b).value, true)
    ensures BookMoved(b, Start(b, now), true) && BookMoved(b, Complete(b, now), true)
  {
    hide BookMoved, RefundPublish;
    SameRowsMove(b, Start(b, now), true);
    SameRowsMove(b, Complete(b, now), true);
    if ReviewApprove(b, guards, now).Ok? {
      SameRowsMove(b, ReviewApprove(b, guards, now).value, true);
    }
    if ReviewReject(b).Ok? {
      SameRowsMove(b, ReviewReject(b).value, true);
    }
  }

  lemma ExpireOrderMoves(b: Book, i: nat, o: nat, now: Time)
    requires ExpireOrder(b, i, o, now).Ok?
    ensures BookMoved(b, ExpireOrder(b, i, o, now).value, true)
  {
    hide RowMoved, BookMoved, ExpireOne;
    ExpireOneMoves(b.participations[i], o, b.terms.principal, b.terms.fee, now);
    OneRowMoves(b, i, ExpireOne(b.participations[i], o, now), true);
  }

  lemma DecisionMoves(b: Book, i: nat, c: nat, now: Time)
    ensures BeginReview(b, i, c).Ok? ==> BookMoved(b, BeginReview(b, i, c).value, true)
    ensures EscalateCase(b, i, c).Ok? ==> BookMoved(b, EscalateCase(b, i, c).value, true)
    ensures DeclineCase(b, i, c, now).Ok? ==> BookMoved(b, DeclineCase(b, i, c, now).value, true)
  {
    hide BookMoved, ReleaseAfterSales;
    if CaseExists(b, i, c) {
      var p := b.participations[i];
      if StartReview(p, c).Ok? {
        CaseCallMoves(b, i, StartReview(p, c).value, Put(b, i, StartReview(p, c).value));
      }
      if Escalate(p, c).Ok? {
        CaseCallMoves(b, i, Escalate(p, c).value, Put(b, i, Escalate(p, c).value));
      }
      if RejectCase(p, c).Ok? {
        ReleaseFrame(Put(b, i, RejectCase(p, c).value), now);
        CaseCallMoves(b, i, RejectCase(p, c).value, DeclineCase(b, i, c, now).value);
      }
    }
  }

  lemma UnsteadyMoves(b: Book, b': Book, steady: bool)
    requires BookMoved(b, b', true)
    ensures BookMoved(b, b', steady)
  {
    forall i | 0 <= i < |b.participations|
      ensures RowMoved(b.participations[i], b'.participations[i], b.terms.principal, b.terms.fee, steady)
    {
      UnsteadyRow(b.participations[i], b'.participations[i], b.terms.principal, b.terms.fee, steady);
    }
  }

  lemma UnsteadyRow(p: Participation, q: Participation, principal: nat, fee: nat, steady: bool)
    requires RowMoved(p, q, principal, fee, true)
    ensures RowMoved(p, q, principal, fee, steady)
  {
    hide Applies, Consistent;
    forall k | 0 <= k < |p.orders|
      ensures OrderMoved(p.orders[k], q.orders[k], steady)
    {
      var m :| Applies(m, p.orders[k], q.orders[k]) && Consistent(m, p.orders[k]);
    }
  }

  lemma SeatCallMoves(b: Book, t: Time, c: Call, now: Time)
    requires BookOk(b, t) && IsSeatCall(c) && Try(b, c, now).Ok?
    ensures BookMoved(b, Try(b, c, now).value, true)
  {
    assert RowsOk(b.participations);
    hide BookOk, BookMoved, SignUp, ExpireOrder, ExpireAll, OpenPayment, RecordSuccess, CompensationTask, CancelOwn, CancelByOrganizer,
      CancelByAdmin, FailUnformed, Start, Complete, ReviewApprove, ReviewReject;
    match c
    case ReviewApproveCall(guards) => ReviewCallsMove(b, guards, now);
    case ReviewRejectCall => ReviewCallsMove(b, true, now);
    case SignUpCall(user, eligible, cityOpen, timeout) => SignUpMoves(b, t, user, eligible, cityOpen, timeout, now);
    case ExpireOrderCall(i, o) => ExpireOrderMoves(b, i, o, now);
    case ExpireAllCall => SweepBookMoves(b, now);
    case OpenPaymentCall(user, available, externalOnly) => OpenPaymentMoves(b, t, user, available, externalOnly, now);
    case ChannelSuccessCall(i, o, paidAt) => RecordSuccessMoves(b, t, i, o, paidAt, now);
    case CompensationCall(i, o, answer) => CompensationTaskMoves(b, t, i, o, answer, now);
    case CancelOwnCall(user) => CancelOwnMoves(b, t, user, now);
    case CancelByOrganizerCall => CancelCallsMove(b, t, now);
    case CancelByAdminCall => CancelCallsMove(b, t, now);
    case FailUnformedCall => CancelCallsMove(b, t, now);
    case StartCall => ReviewCallsMove(b, true, now);
    case CompleteCall => ReviewCallsMove(b, true, now);
  }

  lemma MoneyCallMoves(b: Book, t: Time, c: Call, now: Time)
    requires BookOk(b, t) && !IsSeatCall(c) && !c.RefundCall? && Try(b, c, now).Ok?
    ensures BookMoved(b, Try(b, c, now).value, true)
  {
    hide BookOk, BookMoved, RegisterCase, BeginReview, EscalateCase, DeclineCase, Approve, EnsureSettlement, AdvanceSettlement,
      FreezeByAdmin, ReleaseByAdmin, SettleByAdmin;
    match c
    case RegisterCaseCall(user, staff, periods) => RegisterCaseMoves(b, user, staff, periods);
    case BeginReviewCall(i, k) => DecisionMoves(b, i, k, now);
    case EscalateCaseCall(i, k) => DecisionMoves(b, i, k, now);
    case DeclineCaseCall(i, k) => DecisionMoves(b, i, k, now);
    case ApproveCall(i, k, principal, fee, authorised) => ApproveCallMoves(b, t, i, k, principal, fee, authorised, now);
    case EnsureSettlementCall(periods) => SettlementCallsMove(b, periods, now);
    case AdvanceSettlementCall => SettlementCallsMove(b, Periods(0, 0), now);
    case FreezeByAdminCall => SettlementCallsMove(b, Periods(0, 0), now);
    case ReleaseByAdminCall => SettlementCallsMove(b, Periods(0, 0), now);
    case SettleByAdminCall => SettlementCallsMove(b, Periods(0, 0), now);
  }

  /** Whatever call is made, each order has moved in one of the listed ways. */
  lemma NextMoves(b: Book, t: Time, c: Call, now: Time)
    requires BookOk(b, t)
    ensures BookMoved(b, Next(b, c, now), SteadyCall(b, c))
  {
    hide BookOk, BookMoved, IsSeatCall, TakesBack;
    if Try(b, c, now).Refused? {
      SameRowsMove(b, b, SteadyCall(b, c));
    } else if c.RefundCall? {
      hide RefundProgress;
      RefundCallMoves(b, c, now);
    } else {
      hide Try;
      if IsSeatCall(c) {
        SeatCallMoves(b, t, c, now);
      } else {
        MoneyCallMoves(b, t, c, now);
      }
      UnsteadyMoves(b, Next(b, c, now), SteadyCall(b, c));
    }
  }

  lemma RefundCallMoves(b: Book, c: Call, now: Time)
    requires c.RefundCall? && Try(b, c, now).Ok?
    ensures BookMoved(b, Try(b, c, now).value, SteadyCall(b, c))
  {
    hide BookMoved, TakesBack, Advance, ReleaseAfterSales;
    RefundProgressMoves(b, c.row, c.ref, c.step, if c.step == TakeUp then now else c.at);
  }
}
