/** What any run does to a payment: it takes effect at most once, it either keeps
    the seat it paid for or is given back, and refunds are never made twice. */
module PaymentRuns {
  import opened Wrappers
  import opened Totals
  import opened WalletAllocations
  import opened PaymentOrders
  import opened OrderInvariants
  import opened OrderMoves
  import opened Participations
  import opened ParticipationInvariants
  import opened Activities
  import opened ActivityInvariants
  import opened ActivitySteps
  import opened ActivityMoves
  import opened ActivityRuns

  // ----- paid or compensated -----

  // Paid in time: the wallet part is spent and nothing is owed for lateness.
  predicate TakenInFull(o: PaymentOrder) {
    && o.IsPaid()
    && (o.allocation.Some? ==> o.allocation.value.status in {Consumed, PartlyReturned, FullyReturned} && !o.IsReleased())
    && forall r :: r in o.refunds ==> !r.key.TimeoutKey?
  }

  // Paid late: the wallet part is released, and one refund, over the channel alone,
  // gives back exactly what the channel took.
  predicate GivenBack(o: PaymentOrder) {
    && o.IsPaid()
    && (o.allocation.Some? ==> o.IsReleased())
    && o.refunds != [] && o.refunds[0].key.TimeoutKey?
    && o.refunds[0].principal + o.refunds[0].fee == Captured(o) == o.refunds[0].external
    && o.refunds[0].wallet == 0
    && forall j :: 1 <= j < |o.refunds| ==> !o.refunds[j].key.TimeoutKey?
  }

  lemma PaidOneWay(o: PaymentOrder)
    requires OrderOk(o) && o.IsPaid()
    ensures TakenInFull(o) <==> !GivenBack(o)
  {
    hide ReservationOk, RoutesOk, ReceiptsOk, Captured, Min;
    if o.refunds != [] {
      assert o.refunds[0] in o.refunds;
    }
  }

  lemma SeatIsPaidFor(p: Participation)
    requires ParticipationOk(p) && p.status == Active
    ensures p.orders != [] && TakenInFull(Last(p)) && Last(p).refunds == []
  {
    assert OrderOk(Last(p));
    PaidOneWay(Last(p));
    hide OrderOk;
  }

  /** In every reachable state each paid order is either kept in full or given back,
      never both, and whoever has a seat has paid for it with the newest order. */
  lemma PaidOrCompensated(b: Book, t: Time, es: seq<Event>)
    requires Opening(b) && Ordered(es, t)
    ensures forall p, o :: p in Run(b, es).participations && o in p.orders && o.IsPaid() ==> (TakenInFull(o) <==> !GivenBack(o))
    ensures forall p :: p in Run(b, es).participations && p.status == Active ==>
      p.orders != [] && TakenInFull(Last(p)) && Last(p).refunds == []
  {
    OpeningOk(b, t);
    RunKeepsOk(b, t, es);
    assert RowsOk(Run(b, es).participations);
    hide Run, TakenInFull, GivenBack, OrderOk, BookOk;
    forall p, o | p in Run(b, es).participations && o in p.orders && o.IsPaid()
      ensures TakenInFull(o) <==> !GivenBack(o)
    {
      assert ParticipationOk(p);
      PaidOneWay(o);
    }
    forall p | p in Run(b, es).participations && p.status == Active
      ensures p.orders != [] && TakenInFull(Last(p)) && Last(p).refunds == []
    {
      SeatIsPaidFor(p);
    }
  }

  predicate OrderExists(b: Book, i: nat, o: nat) {
    i < |b.participations| && o < |b.participations[i].orders|
  }

  // What the first success of an order does: a payment made while the order was open
  // seats the participant, any other is given back.
  predicate TakesEffect(p: Participation, o: nat, paidAt: Time, q: Participation)
    requires o < |p.orders|
  {
    && |q.orders| == |p.orders| && q.orders == p.orders[o := q.orders[o]]
    && q.orders[o].paidAt == Some(paidAt)
    && if p.orders[o].status == PaymentOrders.PendingPayment && paidAt < p.orders[o].expiresAt then
         && q == p.(orders := q.orders, status := Active, holdUntil := None)
         && o == |p.orders| - 1 && q.orders[o].status == Paid && TakenInFull(q.orders[o]) && q.orders[o].refunds == []
       else
         && q == p.(orders := q.orders)
         && GivenBack(q.orders[o]) && |q.orders[o].refunds| == 1 && Captured(q.orders[o]) == Captured(p.orders[o])
  }

  // An open order is the newest one, of a participant who is waiting.
  lemma LateUnlessOpen(p: Participation, o: nat, paidAt: Time)
    requires ParticipationOk(p) && o < |p.orders| && !p.orders[o].IsPaid()
    ensures PaymentIsLate(p, p.orders[o], paidAt) <==>
      !(p.orders[o].status == PaymentOrders.PendingPayment && paidAt < p.orders[o].expiresAt)
  {
    hide OrderOk, KeysOk;
  }

  lemma SuccessTakesEffect(p: Participation, o: nat, paidAt: Time)
    requires ParticipationOk(p) && o < |p.orders| && !p.orders[o].IsPaid()
    ensures ApplySuccess(p, o, paidAt).Ok? && TakesEffect(p, o, paidAt, ApplySuccess(p, o, paidAt).value.participation)
  {
    LateUnlessOpen(p, o, paidAt);
    if PaymentIsLate(p, p.orders[o], paidAt) {
      LateKeepsOk(p, o, paidAt);
      var q := ApplySuccess(p, o, paidAt).value.participation;
      assert OrderOk(q.orders[o]);
      hide ParticipationOk, ApplySuccess, AddRefund, CreateRefund;
      GivenBackAtOnce(p.orders[o], paidAt, TimeoutKey(o));
    } else {
      InTimeKeepsOk(p, o, paidAt);
      InTimeRow(p, o, paidAt);
      SeatIsPaidFor(ApplySuccess(p, o, paidAt).value.participation);
      hide ParticipationOk, ApplySuccess, TakenInFull;
    }
  }

  lemma InTimeRow(p: Participation, o: nat, paidAt: Time)
    requires ParticipationOk(p) && o < |p.orders| && !p.orders[o].IsPaid()
    requires !PaymentIsLate(p, p.orders[o], paidAt)
    ensures ApplySuccess(p, o, paidAt).Ok?
    ensures var q := ApplySuccess(p, o, paidAt).value.participation;
      && |q.orders| == |p.orders| && q.orders == p.orders[o := q.orders[o]]
      && q.orders[o].paidAt == Some(paidAt) && q.orders[o].status == Paid
      && q == p.(orders := q.orders, status := Active, holdUntil := None)
  {
    PaidInTimeShape(p.orders[o], paidAt);
  }

  lemma GivenBackAtOnce(o: PaymentOrder, paidAt: Time, key: RefundKey)
    requires OrderOk(o) && !o.IsPaid() && key.TimeoutKey?
    ensures var q := PaidBack(o, paidAt, key);
      GivenBack(q) && |q.refunds| == 1 && Captured(q) == Captured(o) && q.paidAt == Some(paidAt)
  {
    LatePaymentKeepsOk(o, paidAt, key);
    PaidOneWay(PaidBack(o, paidAt, key));
  }

  /** The first success notified for an order takes effect, and touches nothing else: it
      seats the participant if the order is still open and the payment was made before
      it expired, and is given back otherwise. It is never refused, so no captured money
      is ever stranded. */
  lemma FirstSuccess(b: Book, t: Time, i: nat, o: nat, paidAt: Time, now: Time)
    requires BookOk(b, t) && t <= now && OrderExists(b, i, o) && !b.participations[i].orders[o].IsPaid()
    ensures var b' := Next(b, ChannelSuccessCall(i, o, paidAt), now);
      && |b'.participations| == |b.participations| && b'.participations == b.participations[i := b'.participations[i]]
      && TakesEffect(b.participations[i], o, paidAt, b'.participations[i])
      && b'.publish == b.publish && b'.settlement == b.settlement
  {
    assert ParticipationOk(b.participations[i]);
    SuccessTakesEffect(b.participations[i], o, paidAt);
    hide BookOk, ParticipationOk, ApplySuccess, TakesEffect, Total;
  }

  lemma PaidRowIgnoresSuccess(p: Participation, o: nat, paidAt: Time)
    requires o < |p.orders| && p.orders[o].IsPaid()
    ensures ApplySuccess(p, o, paidAt) == Ok(Success(p, false, false))
  {
  }

  lemma PaidRowIgnoresCompensation(p: Participation, o: nat, answer: Option<Time>)
    requires ParticipationOk(p) && o < |p.orders| && p.orders[o].IsPaid()
    ensures Compensate(p, o, answer).Ok? ==> Compensate(p, o, answer).value == p
  {
    if p.orders[o].compensation {
      CompensationIsTheLatePayment(p, o, answer);
      hide ParticipationOk, Compensate, ApplySuccess;
    }
  }

  lemma PaidIgnored(b: Book, t: Time, i: nat, o: nat, paidAt: Time, answer: Option<Time>, now: Time)
    requires BookOk(b, t) && OrderExists(b, i, o) && b.participations[i].orders[o].IsPaid()
    ensures Next(b, ChannelSuccessCall(i, o, paidAt), now) == b
    ensures Next(b, CompensationCall(i, o, answer), now) == b
  {
    var p := b.participations[i];
    assert ParticipationOk(p);
    PaidRowIgnoresSuccess(p, o, paidAt);
    PaidRowIgnoresCompensation(p, o, answer);
    hide BookOk, ParticipationOk, ApplySuccess, Compensate;
    assert Put(b, i, p) == b;
  }

  /** A payment takes effect at most once: from then on, however the run goes, a
      repeated notification or compensation job for it changes nothing. */
  lemma PaymentTakesEffectOnce(b: Book, t: Time, es: seq<Event>, i: nat, o: nat, paidAt: Time, answer: Option<Time>, now: Time)
    requires BookOk(b, t) && Ordered(es, t) && OrderExists(b, i, o) && b.participations[i].orders[o].IsPaid()
    ensures var b' := Run(b, es);
      && OrderExists(b', i, o) && b'.participations[i].orders[o].IsPaid()
      && Next(b', ChannelSuccessCall(i, o, paidAt), now) == b'
      && Next(b', CompensationCall(i, o, answer), now) == b'
  {
    RunKeepsOk(b, t, es);
    RunExtends(b, t, es);
    hide BookOk, Run, Next;
    var b' := Run(b, es);
    assert RowExtends(b.participations[i], b'.participations[i]);
    PaidIgnored(b', Clock(es, t), i, o, paidAt, answer, now);
  }

  lemma SuccessPays(b: Book, t: Time, i: nat, o: nat, paidAt: Time, now: Time)
    requires BookOk(b, t) && t <= now && OrderExists(b, i, o)
    ensures var b' := Next(b, ChannelSuccessCall(i, o, paidAt), now);
      OrderExists(b', i, o) && b'.participations[i].orders[o].IsPaid()
  {
    hide BookOk, Next, TakesEffect;
    if b.participations[i].orders[o].IsPaid() {
      PaidIgnored(b, t, i, o, paidAt, None, now);
    } else {
      FirstSuccess(b, t, i, o, paidAt, now);
      EffectIsPaid(b.participations[i], o, paidAt, Next(b, ChannelSuccessCall(i, o, paidAt), now).participations[i]);
    }
  }

  lemma EffectIsPaid(p: Participation, o: nat, paidAt: Time, q: Participation)
    requires o < |p.orders| && TakesEffect(p, o, paidAt, q)
    ensures o < |q.orders| && q.orders[o].IsPaid()
  {
  }

  lemma ClosedIsQueued(b: Book, t: Time, i: nat, o: nat)
    requires BookOk(b, t) && OrderExists(b, i, o) && b.participations[i].orders[o].status == Closed
    ensures b.participations[i].orders[o].compensation
  {
    RowOf(b, t, i);
    assert OrderOk(b.participations[i].orders[o]);
  }

  lemma PaidAndQueuedIsGivenBack(b: Book, t: Time, i: nat, o: nat)
    requires BookOk(b, t) && OrderExists(b, i, o)
    requires b.participations[i].orders[o].IsPaid() && b.participations[i].orders[o].compensation
    ensures GivenBack(b.participations[i].orders[o])
    ensures EnsureCompensation(b.participations[i], o) == Ok(b.participations[i])
  {
    RowOf(b, t, i);
    var p := b.participations[i];
    PaidCompensatedOrderIsLate(p, o);
    assert OrderOk(p.orders[o]);
    PaidOneWay(p.orders[o]);
    hide OrderOk, BookOk, ParticipationOk, CreateRefund;
  }

  /** The compensation job works in steps: it finds an order closed, asks the channel,
      records the success it hears of and then makes sure of the refund. Whatever
      happens between the steps, the order ends given back and the last step finds
      nothing to do, so that the job never adds a refund of its own. */
  lemma CompensationInSteps(b: Book, t: Time, i: nat, o: nat, meanwhile: seq<Event>, paidAt: Time, now: Time, later: seq<Event>)
    requires BookOk(b, t) && OrderExists(b, i, o) && b.participations[i].orders[o].status == Closed
    requires Ordered(meanwhile, t) && Clock(meanwhile, t) <= now && Ordered(later, now)
    ensures var last := Run(Next(Run(b, meanwhile), ChannelSuccessCall(i, o, paidAt), now), later);
      && OrderExists(last, i, o)
      && GivenBack(last.participations[i].orders[o])
      && EnsureCompensation(last.participations[i], o) == Ok(last.participations[i])
  {
    hide BookOk, Run, Next, GivenBack, EnsureCompensation;
    var heard := Run(b, meanwhile);
    var paid := Next(heard, ChannelSuccessCall(i, o, paidAt), now);
    var last := Run(paid, later);
    ClosedIsQueued(b, t, i, o);
    RunKeepsOk(b, t, meanwhile);
    RunExtends(b, t, meanwhile);
    assert RowExtends(b.participations[i], heard.participations[i]);
    NextKeepsOk(heard, Clock(meanwhile, t), ChannelSuccessCall(i, o, paidAt), now);
    NextExtends(heard, Clock(meanwhile, t), ChannelSuccessCall(i, o, paidAt), now);
    assert RowExtends(heard.participations[i], paid.participations[i]);
    SuccessPays(heard, Clock(meanwhile, t), i, o, paidAt, now);
    RunKeepsOk(paid, now, later);
    RunExtends(paid, now, later);
    assert RowExtends(paid.participations[i], last.participations[i]);
    PaidAndQueuedIsGivenBack(last, Clock(later, now), i, o);
  }

  /** The job in one step: an order still closed that the channel was paid for is given
      back, and nothing else ever changes. */
  lemma CompensationOutcome(b: Book, t: Time, i: nat, o: nat, answer: Option<Time>, now: Time)
    requires BookOk(b, t) && OrderExists(b, i, o)
    ensures var p, b' := b.participations[i], Next(b, CompensationCall(i, o, answer), now);
      if p.orders[o].status == Closed && answer.Some? then
        && b' == b.(participations := b.participations[i := b'.participations[i]])
        && TakesEffect(p, o, answer.value, b'.participations[i]) && GivenBack(b'.participations[i].orders[o])
      else b' == b
  {
    var p := b.participations[i];
    RowOf(b, t, i);
    assert b.participations[i := p] == b.participations;
    if p.orders[o].status == Closed {
      ClosedIsQueued(b, t, i, o);
    }
    if p.orders[o].compensation {
      CompensationIsTheLatePayment(p, o, answer);
      if p.orders[o].status == Closed && answer.Some? {
        SuccessTakesEffect(p, o, answer.value);
      }
    }
    hide BookOk, ParticipationOk, ApplySuccess, GivenBack, TakenInFull;
    NoJobNoChange(p, o, answer);
  }

  lemma NoJobNoChange(p: Participation, o: nat, answer: Option<Time>)
    requires o < |p.orders|
    ensures !p.orders[o].compensation ==> Compensate(p, o, answer).Refused?
  {
    hide ApplySuccess;
  }

  // ----- opening a payment -----

  // How opening splits an order: a split once made stays, a first one takes what the
  // wallet has.
  predicate SplitFor(o: PaymentOrder, split: Allocation, available: nat, externalOnly: bool) {
    && split.wallet + split.external == split.payable == o.Payable()
    && if o.allocation.Some? then
         split.wallet == o.allocation.value.wallet
       else
         && (externalOnly ==> split.wallet == 0)
         && (!externalOnly ==> split.wallet <= available && (split.wallet == available || split.wallet == o.Payable()))
  }

  // The newest order has been opened: paid at once if nothing is left for the channel,
  // and otherwise only split.
  predicate Opens(p: Participation, q: Participation, available: nat, externalOnly: bool, now: Time)
    requires p.orders != []
  {
    var n := |p.orders| - 1;
    && |q.orders| == |p.orders| && q.orders == p.orders[n := q.orders[n]]
    && q.orders[n].allocation.Some?
    && var split := q.orders[n].allocation.value;
      && SplitFor(p.orders[n], split, available, externalOnly)
      && if split.external == 0 then
           && q == p.(orders := q.orders, status := Active, holdUntil := None)
           && q.orders[n].status == Paid && q.orders[n].paidAt == Some(now) && split.status == Consumed
         else
           && q == p.(orders := q.orders)
           && q.orders[n] == p.orders[n].(allocation := Some(split)) && split.status == Held
  }

  lemma SessionSplits(o: PaymentOrder, available: nat, externalOnly: bool, now: Time)
    requires OrderOk(o)
    ensures var r := OpenSession(o, available, externalOnly, now);
      && (r.Ok? <==> o.status == PaymentOrders.PendingPayment && now < o.expiresAt)
      && (r.Ok? ==>
            && r.value.allocation.Some? && r.value == o.(allocation := r.value.allocation)
            && SplitFor(o, r.value.allocation.value, available, externalOnly)
            && r.value.allocation.value.status == Held)
  {
    SplitByBalance(o.allocation, o.Payable(), available, externalOnly);
    hide ReservationOk, RoutesOk, ReceiptsOk, LateOk, ShapeOk, Prepare;
  }

  lemma HeldIsSpent(o: PaymentOrder, paidAt: Time)
    requires o.allocation.Some? && o.allocation.value.status == Held && !o.allocation.value.walletReleased
    ensures PayInTime(o, paidAt) == Ok(o.(status := Paid, paidAt := Some(paidAt), allocation := Some(o.allocation.value.(status := Consumed))))
  {
  }

  lemma OpenedRow(p: Participation, available: nat, externalOnly: bool, now: Time, held: Participation)
    requires ParticipationOk(p)
    requires var r := OpenSession(Last(p), available, externalOnly, now);
      r.Ok? && held == p.(orders := p.orders[|p.orders| - 1 := r.value])
    ensures var split := Last(held).allocation.value;
      if split.external == 0 then
        var s := ApplySuccess(held, |p.orders| - 1, now);
        s.Ok? && s.value.changed && !s.value.late && Opens(p, s.value.participation, available, externalOnly, now)
      else Opens(p, held, available, externalOnly, now)
  {
    var n := |p.orders| - 1;
    var o := Last(held);
    assert OrderOk(Last(p));
    SessionSplits(Last(p), available, externalOnly, now);
    assert !Last(p).IsReleased() && !o.IsReleased();
    HeldIsSpent(o, now);
    hide OrderOk, KeysOk, OpenSession, PayInTime, CreateRefund;
    assert !PaymentIsLate(held, o, now);
  }

  lemma OpeningCall(b: Book, user: nat, available: nat, externalOnly: bool, now: Time)
    ensures var r := OpenPayment(b, user, available, externalOnly, now);
      Next(b, OpenPaymentCall(user, available, externalOnly), now) == if r.Ok? then r.value else b
  {
    hide OpenPayment;
  }

  /** A payment can be opened exactly while its order is open and within its hold. The
      order is then split by the wallet's balance, and paid at once exactly if nothing
      is left for the channel: no payment takes effect with part of it uncollected. */
  lemma OpeningSplitsByBalance(b: Book, t: Time, i: nat, available: nat, externalOnly: bool, now: Time)
    requires BookOk(b, t) && t <= now && i < |b.participations|
    ensures var p := b.participations[i];
      && p.orders != []
      && var r, b' := OpenPayment(b, p.user, available, externalOnly, now), Next(b, OpenPaymentCall(p.user, available, externalOnly), now);
        && (r.Ok? <==> Last(p).status == PaymentOrders.PendingPayment && now < Last(p).expiresAt)
        && (r.Ok? ==>
              && |b'.participations| == |b.participations| && b'.participations == b.participations[i := b'.participations[i]]
              && Opens(p, b'.participations[i], available, externalOnly, now)
              && b'.publish == b.publish && b'.settlement == b.settlement)
  {
    var p := b.participations[i];
    FoundAt(b, t, i);
    RowOf(b, t, i);
    assert OrderOk(Last(p));
    SessionSplits(Last(p), available, externalOnly, now);
    OpeningCall(b, p.user, available, externalOnly, now);
    hide BookOk, ParticipationOk, OrderOk, FindUser, OpenSession, Opens, ApplySuccess, Total, Next;
    var session := OpenSession(Last(p), available, externalOnly, now);
    if session.Ok? {
      OpenedRow(p, available, externalOnly, now, p.(orders := p.orders[|p.orders| - 1 := session.value]));
    }
  }

  /** A first opening pays the order at once exactly if the wallet covers all of it. */
  lemma PaidAtOnceIff(p: Participation, q: Participation, available: nat, externalOnly: bool, now: Time)
    requires p.orders != [] && Last(p).status == PaymentOrders.PendingPayment && Last(p).allocation.None? && Last(p).Payable() > 0
    requires Opens(p, q, available, externalOnly, now)
    ensures q.orders[|p.orders| - 1].status == Paid <==> !externalOnly && Last(p).Payable() <= available
  {
  }

  // ----- idempotency keys -----

  /** No two refunds of a participation share an idempotency key. */
  lemma KeysAreUnique(p: Participation, i: nat, j: nat, i': nat, j': nat)
    requires ParticipationOk(p)
    requires i < |p.orders| && j < |p.orders[i].refunds| && i' < |p.orders| && j' < |p.orders[i'].refunds|
    requires p.orders[i].refunds[j].key == p.orders[i'].refunds[j'].key
    ensures i == i' && j == j'
  {
    assert KeyOk(p, i, j) && KeyOk(p, i', j');
    assert ShapeOk(p.orders[i]) && ShapeOk(p.orders[i']) by {
      assert OrderOk(p.orders[i]) && OrderOk(p.orders[i']);
    }
    hide OrderOk;
  }

  lemma ReplayFindsIt(p: Participation, i: nat, j: nat, principal: int, fee: int, retained: int, toOrganizer: bool)
    requires ParticipationOk(p) && i < |p.orders| && j < |p.orders[i].refunds|
    ensures var r := p.orders[i].refunds[j];
      CreateRefund(p, i, r.key, principal, fee, retained, toOrganizer) ==
        if principal + fee == r.principal + r.fee then Ok(RefundOutcome(p, RefundRef(i, j), false)) else Refused(IdempotencyConflict)
  {
    var key := p.orders[i].refunds[j].key;
    assert p.orders[i] in p.orders && p.orders[i].refunds[j] in p.orders[i].refunds;
    var ref := FindKey(p.orders, key).value;
    KeysAreUnique(p, i, j, ref.order, ref.refund);
    hide ParticipationOk, FindKey, AddRefund;
  }

  /** Replaying a refund request at any later time, after any run, finds the refund
      already made: it creates nothing, and a different amount is refused. */
  lemma ReplayCreatesNothing(b: Book, t: Time, es: seq<Event>, row: nat, i: nat, j: nat, principal: int, fee: int, retained: int, toOrganizer: bool)
    requires BookOk(b, t) && Ordered(es, t)
    requires OrderExists(b, row, i) && j < |b.participations[row].orders[i].refunds|
    ensures var r, b' := b.participations[row].orders[i].refunds[j], Run(b, es);
      && OrderExists(b', row, i)
      && CreateRefund(b'.participations[row], i, r.key, principal, fee, retained, toOrganizer) ==
           (if principal + fee == r.principal + r.fee then Ok(RefundOutcome(b'.participations[row], RefundRef(i, j), false))
            else Refused(IdempotencyConflict))
  {
    RunKeepsOk(b, t, es);
    RunExtends(b, t, es);
    var b' := Run(b, es);
    assert RowExtends(b.participations[row], b'.participations[row]);
    assert Extends(b.participations[row].orders[i], b'.participations[row].orders[i]);
    assert ParticipationOk(b'.participations[row]);
    hide BookOk, Run, CreateRefund, ParticipationOk;
    ReplayFindsIt(b'.participations[row], i, j, principal, fee, retained, toOrganizer);
  }

  // ----- completion -----

  lemma CompletionSucceeds(p: Participation, ref: RefundRef)
    requires ParticipationOk(p) && RefExists(p, ref)
    ensures Participations.Advance(p, ref, ChannelSucceeded).Ok?
    ensures RefundStatusAt(Participations.Advance(p, ref, ChannelSucceeded).value, ref) == RefundSucceeded
  {
    AdvanceKeepsOk(p, ref, ChannelSucceeded);
    hide ParticipationOk, CompleteWalletRefund, Total;
  }

  /** No refund ever gets stuck: in every reachable state a success of the channel for
      any refund on record is accepted and completes it. */
  lemma RefundsCanComplete(b: Book, t: Time, es: seq<Event>, row: nat, ref: RefundRef, at: Time, now: Time)
    requires Opening(b) && Ordered(es, t)
    requires var b' := Run(b, es); row < |b'.participations| && RefExists(b'.participations[row], ref)
    ensures var after := Next(Run(b, es), RefundCall(row, ref, ChannelSucceeded, at), now);
      row < |after.participations| && RefundStatusAt(after.participations[row], ref) == RefundSucceeded
  {
    OpeningOk(b, t);
    RunKeepsOk(b, t, es);
    var b' := Run(b, es);
    assert ParticipationOk(b'.participations[row]);
    hide Run, BookOk, ParticipationOk, Advance, ReleaseAfterSales, RefundStatusAt;
    CompletionSucceeds(b'.participations[row], ref);
    ReleaseFrame(Put(b', row, Participations.Advance(b'.participations[row], ref, ChannelSucceeded).value), at);
  }

  // ----- the order's status and the ledger, over runs -----

  predicate LedgersOk(b: Book) {
    forall p :: p in b.participations ==> RowLedgersOk(p)
  }

  predicate RowLedgersOk(p: Participation) {
    forall o :: o in p.orders ==> LedgerOk(o)
  }

  // The channel never takes back an answer in this run.
  predicate Steady(b: Book, es: seq<Event>) {
    es != [] ==> Steady(b, es[..|es| - 1]) && SteadyCall(Run(b, es[..|es| - 1]), es[|es| - 1].call)
  }

  lemma NewOrderLedger(o: PaymentOrder, principal: nat, fee: nat)
    requires IsNew(o, principal, fee) && principal >= 1
    ensures LedgerOk(o)
  {
  }

  lemma MovedKeepsLedger(o: PaymentOrder, o': PaymentOrder)
    requires OrderOk(o) && LedgerOk(o) && OrderMoved(o, o', true)
    ensures LedgerOk(o')
  {
    hide OrderOk, LedgerOk, Applies, Consistent;
    var m :| Applies(m, o, o') && (true ==> Consistent(m, o));
    MoveKeepsLedger(m, o, o');
  }

  lemma RowKeepsLedger(p: Participation, q: Participation, principal: nat, fee: nat)
    requires ParticipationOk(p) && RowLedgersOk(p) && RowMoved(p, q, principal, fee, true) && principal >= 1
    ensures RowLedgersOk(q)
  {
    hide OrderOk, LedgerOk, OrderMoved, IsNew, KeysOk, SeatOk;
    forall k | 0 <= k < |q.orders|
      ensures LedgerOk(q.orders[k])
    {
      if k < |p.orders| {
        MovedKeepsLedger(p.orders[k], q.orders[k]);
      } else {
        NewOrderLedger(q.orders[k], principal, fee);
      }
    }
  }

  lemma NewRowLedger(q: Participation, principal: nat, fee: nat)
    requires RowIsNew(q, principal, fee) && principal >= 1
    ensures RowLedgersOk(q)
  {
    hide LedgerOk, IsNew;
    forall k | 0 <= k < |q.orders|
      ensures LedgerOk(q.orders[k])
    {
      NewOrderLedger(q.orders[k], principal, fee);
    }
  }

  lemma NextKeepsLedger(b: Book, t: Time, c: Call, now: Time)
    requires BookOk(b, t) && LedgersOk(b) && SteadyCall(b, c)
    ensures LedgersOk(Next(b, c, now))
  {
    NextMoves(b, t, c, now);
    assert RowsOk(b.participations) && b.terms.principal >= 1;
    var b' := Next(b, c, now);
    hide BookOk, Next, RowMoved, RowIsNew, ParticipationOk, RowLedgersOk, SteadyCall;
    forall i | 0 <= i < |b'.participations|
      ensures RowLedgersOk(b'.participations[i])
    {
      if i < |b.participations| {
        RowKeepsLedger(b.participations[i], b'.participations[i], b.terms.principal, b.terms.fee);
      } else {
        NewRowLedger(b'.participations[i], b.terms.principal, b.terms.fee);
      }
    }
  }

  /** As long as the channel takes back no answer, in every reachable state an order
      is paid, partly refunded or refunded exactly as its succeeded refunds say, and
      has at most one unfinished refund. */
  lemma {:induction false} StatusAgreesWithLedger(b: Book, t: Time, es: seq<Event>)
    requires Opening(b) && Ordered(es, t) && Steady(b, es)
    ensures LedgersOk(Run(b, es))
  {
    hide BookOk, Next, RowLedgersOk, SteadyCall;
    if es != [] {
      var n := |es| - 1;
      StatusAgreesWithLedger(b, t, es[..n]);
      OpeningOk(b, t);
      RunKeepsOk(b, t, es[..n]);
      NextKeepsLedger(Run(b, es[..n]), Clock(es[..n], t), es[n].call, es[n].at);
    }
  }
}
