/** Whole runs: any calls, in any order, at times that never go back. */
module ActivityRuns {
  import opened Wrappers
  import opened Totals
  import opened WalletAllocations
  import opened PaymentOrders
  import opened OrderInvariants
  import opened OrderMoves
  import opened Participations
  import opened ParticipationInvariants
  import opened Settlements
  import opened SettlementProofs
  import opened Activities
  import opened ActivityInvariants
  import opened ActivitySteps
  import opened ActivityMoves
  import opened ActivityHistory

  datatype Event = Event(call: Call, at: Time)

  function Clock(es: seq<Event>, t: Time): Time {
    if es == [] then t else es[|es| - 1].at
  }

  // Times that never go back, starting from t.
  predicate Ordered(es: seq<Event>, t: Time) {
    es != [] ==> Ordered(es[..|es| - 1], t) && Clock(es[..|es| - 1], t) <= es[|es| - 1].at
  }

  function Run(b: Book, es: seq<Event>): Book {
    if es == [] then b else Next(Run(b, es[..|es| - 1]), es[|es| - 1].call, es[|es| - 1].at)
  }

  // An activity as submitted for review, its publishing payment made.
  predicate Opening(b: Book) {
    && TermsOk(b.terms)
    && b.status == UnderReview
    && b.participations == []
    && b.settlement.None?
    && b.publish.status == PublishPaid && b.publish.refund.None?
    && (b.publish.allocation.Some? ==> !b.publish.allocation.value.walletReleased)
  }

  lemma OpeningOk(b: Book, t: Time)
    requires Opening(b)
    ensures BookOk(b, t)
  {
  }

  lemma {:induction false} RunKeepsOk(b: Book, t: Time, es: seq<Event>)
    requires BookOk(b, t) && Ordered(es, t)
    ensures BookOk(Run(b, es), Clock(es, t))
  {
    hide BookOk, Next;
    if es != [] {
      var n := |es| - 1;
      RunKeepsOk(b, t, es[..n]);
      NextKeepsOk(Run(b, es[..n]), Clock(es[..n], t), es[n].call, es[n].at);
    }
  }

  // ----- no overselling -----

  function OpenOf(o: PaymentOrder): int { if o.status == PaymentOrders.PendingPayment then 1 else 0 }

  function OpenOrders(p: Participation): int { Total(p.orders, OpenOf) }

  lemma SeatsAreActiveOrOpen(p: Participation)
    requires ParticipationOk(p)
    ensures SeatOf(p) == ActiveOf(p) + OpenOrders(p)
  {
    hide OrderOk;
    var n := |p.orders| - 1;
    TotalIsZero(p.orders[..n], OpenOf);
  }

  lemma {:induction false} SeatTotals(ps: seq<Participation>)
    requires RowsOk(ps)
    ensures Total(ps, SeatOf) == Total(ps, ActiveOf) + Total(ps, OpenOrders)
  {
    hide ParticipationOk, SeatOf, ActiveOf, OpenOrders;
    if ps != [] {
      var n := |ps| - 1;
      assert RowsOk(ps[..n]);
      SeatTotals(ps[..n]);
      assert ParticipationOk(ps[n]);
      SeatsAreActiveOrOpen(ps[n]);
    }
  }

  /** In every reachable state the seats taken and the orders still open together
      fit the capacity, however late an in-time payment is applied. */
  lemma NeverOversold(b: Book, t: Time, es: seq<Event>)
    requires Opening(b) && Ordered(es, t)
    ensures var b' := Run(b, es);
      Total(b'.participations, ActiveOf) + Total(b'.participations, OpenOrders) <= b.terms.capacity
  {
    OpeningOk(b, t);
    RunKeepsOk(b, t, es);
    RunExtends(b, t, es);
    SeatTotals(Run(b, es).participations);
    hide RowsOk, Run, Total, BookExtends;
  }

  predicate Reserved(p: Participation, now: Time) {
    p.status == Active || (HasOpen(p) && p.orders[|p.orders| - 1].expiresAt > now)
  }

  lemma {:induction false} FindAppended(ps: seq<Participation>, p: Participation)
    ensures FindUser(ps + [p], p.user) == Some(|ps|)
  {
  }

  lemma {:induction false} FindUpdated(ps: seq<Participation>, i: nat, p: Participation)
    requires i < |ps| && UsersDistinct(ps) && ps[i].user == p.user
    ensures FindUser(ps[i := p], p.user) == Some(i)
  {
    var n := |ps| - 1;
    if i < n {
      assert ps[i := p][..n] == ps[..n][i := p];
      FindUpdated(ps[..n], i, p);
    }
  }

  lemma FoundAt(b: Book, t: Time, i: nat)
    requires BookOk(b, t) && i < |b.participations|
    ensures FindUser(b.participations, b.participations[i].user) == Some(i)
  {
    FindUpdated(b.participations, i, b.participations[i]);
    assert b.participations[i := b.participations[i]] == b.participations;
    hide ParticipationOk, FindUser, UsersDistinct, SettlementOk;
  }

  lemma LiveIsReserved(p: Participation, now: Time)
    requires ParticipationOk(p) && HasLiveOrder(p, now)
    ensures Reserved(p, now)
  {
    hide OrderOk, KeysOk, SeatOk;
  }

  /** A sign-up that is not refused leaves the user with a seat or an open order that
      holds one. */
  lemma SignUpReserves(b: Book, t: Time, user: nat, eligible: bool, cityOpen: bool, timeout: nat, now: Time)
    requires BookOk(b, t) && t <= now && timeout > 0 && SignUp(b, user, eligible, cityOpen, timeout, now).Ok?
    ensures var b' := SignUp(b, user, eligible, cityOpen, timeout, now).value;
      var found := FindUser(b'.participations, user);
      found.Some? && Reserved(b'.participations[found.value], now)
  {
    SweepKeepsOk(b, t, now);
    var swept := ExpireAll(b, now);
    assert UsersDistinct(swept.participations) && RowsOk(swept.participations);
    hide BookOk, ParticipationOk, ExpireAll, FindUser, UsersDistinct, HasLiveOrder, OccupiedCount, HasRefundable;
    var found := FindUser(swept.participations, user);
    if found.None? {
      FindAppended(swept.participations, NewParticipation(user, b.terms.principal, b.terms.fee, now + timeout));
    } else {
      var i := found.value;
      if swept.participations[i].status != Active {
        if HasLiveOrder(swept.participations[i], now) {
          LiveIsReserved(swept.participations[i], now);
        } else {
          FindUpdated(swept.participations, i, SignUpAgain(swept.participations[i], b.terms.principal, b.terms.fee, now + timeout));
        }
      }
    }
  }

  // ----- history -----

  predicate RowExtends(p: Participation, q: Participation) {
    && q.user == p.user
    && |p.orders| <= |q.orders|
    && forall k :: 0 <= k < |p.orders| ==> Extends(p.orders[k], q.orders[k])
  }

  predicate BookExtends(b: Book, b': Book) {
    && b'.terms == b.terms
    && |b.participations| <= |b'.participations|
    && forall i :: 0 <= i < |b.participations| ==> RowExtends(b.participations[i], b'.participations[i])
  }

  lemma MovedExtends(o: PaymentOrder, o': PaymentOrder, steady: bool)
    requires OrderOk(o) && OrderMoved(o, o', steady)
    ensures Extends(o, o')
  {
    var m :| Applies(m, o, o') && (steady ==> Consistent(m, o));
    MoveExtends(m, o, o');
  }

  lemma RowMovedExtends(p: Participation, q: Participation, principal: nat, fee: nat, steady: bool)
    requires ParticipationOk(p) && RowMoved(p, q, principal, fee, steady)
    ensures RowExtends(p, q)
  {
    hide OrderOk, OrderMoved, Extends;
    forall k | 0 <= k < |p.orders|
      ensures Extends(p.orders[k], q.orders[k])
    {
      assert OrderOk(p.orders[k]);
      MovedExtends(p.orders[k], q.orders[k], steady);
    }
  }

  lemma NextExtends(b: Book, t: Time, c: Call, now: Time)
    requires BookOk(b, t)
    ensures BookExtends(b, Next(b, c, now))
  {
    NextMoves(b, t, c, now);
    hide ParticipationOk, RowMoved, RowExtends, Next, SteadyCall, SettlementOk, LifecycleOk, FormationOk, RowIsNew;
    var b' := Next(b, c, now);
    forall i | 0 <= i < |b.participations|
      ensures RowExtends(b.participations[i], b'.participations[i])
    {
      assert ParticipationOk(b.participations[i]);
      RowMovedExtends(b.participations[i], b'.participations[i], b.terms.principal, b.terms.fee, SteadyCall(b, c));
    }
  }

  lemma RowExtendsTransitive(p: Participation, q: Participation, r: Participation)
    requires RowExtends(p, q) && RowExtends(q, r)
    ensures RowExtends(p, r)
  {
    hide Extends;
    forall k | 0 <= k < |p.orders|
      ensures Extends(p.orders[k], r.orders[k])
    {
      ExtendsTransitive(p.orders[k], q.orders[k], r.orders[k]);
    }
  }

  lemma ExtendsSelf(b: Book)
    ensures BookExtends(b, b)
  {
  }

  lemma BookExtendsTransitive(a: Book, b: Book, c: Book)
    requires BookExtends(a, b) && BookExtends(b, c)
    ensures BookExtends(a, c)
  {
    hide RowExtends;
    forall i | 0 <= i < |a.participations|
      ensures RowExtends(a.participations[i], c.participations[i])
    {
      RowExtendsTransitive(a.participations[i], b.participations[i], c.participations[i]);
    }
  }

  /** No run ever forgets: an order that is paid stays paid, and a refund row once
      written is neither dropped nor re-priced. */
  lemma {:induction false} RunExtends(b: Book, t: Time, es: seq<Event>)
    requires BookOk(b, t) && Ordered(es, t)
    ensures BookExtends(b, Run(b, es))
  {
    hide BookOk, Next, BookExtends;
    ExtendsSelf(b);
    if es != [] {
      var n := |es| - 1;
      RunExtends(b, t, es[..n]);
      RunKeepsOk(b, t, es[..n]);
      NextExtends(Run(b, es[..n]), Clock(es[..n], t), es[n].call, es[n].at);
      BookExtendsTransitive(b, Run(b, es[..n]), Run(b, es));
    }
  }

  // ----- solvency -----

  /** Once the organizer has been paid, the payout and every principal refund ever
      reserved, whatever becomes of it, are covered by the principal that was paid. */
  lemma Solvent(b: Book, t: Time, es: seq<Event>)
    requires Opening(b) && Ordered(es, t)
    ensures var b' := Run(b, es);
      IsSettled(b') ==>
        b'.settlement.value.amounts.settlement + Total(b'.participations, ReservedPrincipals) + PublishPrincipalRefunded(b'.publish)
        <= Total(b'.participations, PaidPrincipal) + b'.publish.principal
  {
    OpeningOk(b, t);
    RunKeepsOk(b, t, es);
    var b' := Run(b, es);
    assert RowsOk(b'.participations);
    CashAddsUp(b'.participations);
    hide RowsOk, Run, Total;
  }

  /** The same in cash. A late order counts only for what it brought in, all of which
      goes back: payout, service fees kept and every refund ever reserved, principal and
      fee, are covered by what wallet and channel paid and the publishing principal. */
  lemma SolventInCash(b: Book, t: Time, es: seq<Event>)
    requires Opening(b) && Ordered(es, t)
    ensures var b' := Run(b, es);
      IsSettled(b') ==>
        b'.settlement.value.amounts.settlement + Total(b'.participations, KeptFees)
          + Total(b'.participations, ReservedAmounts) + PublishPrincipalRefunded(b'.publish)
        <= Total(b'.participations, CashTaken) + b'.publish.principal
  {
    OpeningOk(b, t);
    RunKeepsOk(b, t, es);
    var b' := Run(b, es);
    assert RowsOk(b'.participations);
    CashAddsUp(b'.participations);
    hide RowsOk, Run, Total;
  }

  /** A paid settlement is final: no later run changes anything about it. */
  lemma {:induction false} SettledForever(b: Book, t: Time, es: seq<Event>)
    requires BookOk(b, t) && Ordered(es, t) && IsSettled(b)
    ensures Run(b, es).settlement == b.settlement
  {
    hide BookOk, Next, SettledNow;
    if es != [] {
      var n := |es| - 1;
      SettledForever(b, t, es[..n]);
      RunKeepsOk(b, t, es[..n]);
      NextSettles(Run(b, es[..n]), Clock(es[..n], t), es[n].call, es[n].at);
    }
  }

  /** A settlement found paid at the end of a run was paid by one call of that run,
      on or after its date, undisputed, with every after-sales case closed, and for
      the amounts due in that state. */
  lemma {:induction false} SettledOnce(b: Book, t: Time, es: seq<Event>) returns (k: nat)
    requires Opening(b) && Ordered(es, t) && IsSettled(Run(b, es))
    ensures k < |es|
    ensures !IsSettled(Run(b, es[..k])) && SettledNow(Run(b, es[..k]), es[k].call, Run(b, es[..k + 1]), es[k].at)
    ensures Run(b, es[..k + 1]).settlement == Run(b, es).settlement
  {
    hide BookOk, Next, SettledNow;
    OpeningOk(b, t);
    var n := |es| - 1;
    RunKeepsOk(b, t, es[..n]);
    NextSettles(Run(b, es[..n]), Clock(es[..n], t), es[n].call, es[n].at);
    assert es[..n + 1] == es;
    if IsSettled(Run(b, es[..n])) {
      k := SettledOnce(b, t, es[..n]);
      assert es[..n][..k] == es[..k] && es[..n][..k + 1] == es[..k + 1];
    } else {
      k := n;
    }
  }

  /** The dates of a settlement are those of the call that made it, by the end of the
      activity and the periods then in force. */
  lemma {:induction false} MadeOnce(b: Book, t: Time, es: seq<Event>) returns (j: nat)
    requires Opening(b) && Ordered(es, t) && Run(b, es).settlement.Some?
    ensures j < |es| && MakesSettlement(es[j].call)
    ensures Run(b, es[..j]).settlement.None? && Run(b, es[..j + 1]).settlement.Some?
    ensures DatedFrom(b, Run(b, es).settlement.value, es[j].call.periods)
  {
    hide BookOk, Next, SettledNow;
    OpeningOk(b, t);
    var n := |es| - 1;
    RunKeepsOk(b, t, es[..n]);
    RunTerms(b, t, es[..n]);
    NextSettles(Run(b, es[..n]), Clock(es[..n], t), es[n].call, es[n].at);
    assert es[..n + 1] == es;
    if Run(b, es[..n]).settlement.Some? {
      j := MadeOnce(b, t, es[..n]);
      assert es[..n][..j] == es[..j] && es[..n][..j + 1] == es[..j + 1];
    } else {
      j := n;
    }
  }

  /** The organizer is never paid before the confirmation period and the risk freeze
      after the end of the activity are both over. */
  lemma PaidAfterBothPeriods(b: Book, t: Time, es: seq<Event>) returns (j: nat, k: nat)
    requires Opening(b) && Ordered(es, t) && IsSettled(Run(b, es))
    ensures j < |es| && MakesSettlement(es[j].call) && Run(b, es[..j]).settlement.None?
    ensures k < |es| && !IsSettled(Run(b, es[..k])) && IsSettled(Run(b, es[..k + 1]))
    ensures b.terms.endsAt + es[j].call.periods.confirmation + es[j].call.periods.freeze <= es[k].at
  {
    hide Run, Opening, Ordered;
    j := MadeOnce(b, t, es);
    k := SettledOnce(b, t, es);
  }

  /** Conservation in every reachable state: what the organizer would be paid, what
      is owed to nobody and what has been returned make up what was paid; and each part
      of the payout is known: the organizer's own principal, the full principal of those
      who have a seat, and what those who gave theirs up by rule left behind. */
  lemma AlwaysConserves(b: Book, t: Time, es: seq<Event>)
    requires Opening(b) && Ordered(es, t)
    ensures var b' := Run(b, es);
      var a := Calculate(b'.publish, b'.participations);
      && a.settlement + a.unallocated + Total(b'.participations, ReturnedPrincipal) + PublishPrincipalRefunded(b'.publish)
         == Total(b'.participations, PaidPrincipal) + b'.publish.principal
      && a.serviceFee + Total(b'.participations, ReturnedFee) + PublishFeeRefunded(b'.publish)
         == Total(b'.participations, PaidFee) + b'.publish.fee
      && a.organizer == b'.publish.principal - PublishPrincipalRefunded(b'.publish)
      && a.participant == Total(b'.participations, SeatPrincipal)
      && a.retained == Total(b'.participations, LeftBehind)
      && a.settlement == a.organizer + a.participant + a.retained
  {
    OpeningOk(b, t);
    RunKeepsOk(b, t, es);
    var b' := Run(b, es);
    assert RowsOk(b'.participations);
    hide ParticipationOk, Run, Total, Calculate;
    SettlementConserves(b'.publish, b'.participations);
    PayoutExactly(b'.publish, b'.participations);
  }

  /** A settlement is frozen exactly while it has a dispute, in every reachable state. */
  lemma FrozenIffDisputed(b: Book, t: Time, es: seq<Event>)
    requires Opening(b) && Ordered(es, t)
    ensures var s := Run(b, es).settlement;
      s.Some? ==>
        && Run(b, es).status == Completed
        && (s.value.status == DisputeFrozen <==> s.value.source != NoDispute)
  {
    OpeningOk(b, t);
    RunKeepsOk(b, t, es);
    hide RowsOk, Run, Total;
  }

  // ----- the course of a run -----

  predicate IsOver(b: Book) { b.status in {CalledOff, NotFormed} }

  predicate EndedEarly(b: Book) { b.status in {Rejected, CalledOff, NotFormed} }

  lemma {:induction false} EndsAreFinal(b: Book, t: Time, es: seq<Event>)
    requires BookOk(b, t) && Ordered(es, t) && EndedEarly(b)
    ensures Run(b, es).status == b.status
  {
    hide BookOk, Next;
    if es != [] {
      var n := |es| - 1;
      EndsAreFinal(b, t, es[..n]);
      RunKeepsOk(b, t, es[..n]);
      NextCourse(Run(b, es[..n]), Clock(es[..n], t), es[n].call, es[n].at);
    }
  }

  /** A cancelled or unformed activity stays so: whatever happens afterwards, nobody
      is on it and no order is open, so no payment can seat anyone. */
  lemma CancelledStaysCancelled(b: Book, t: Time, es: seq<Event>)
    requires BookOk(b, t) && Ordered(es, t) && IsOver(b)
    ensures Run(b, es).status == b.status
    ensures forall p :: p in Run(b, es).participations ==> p.status != Active && OpenOrders(p) == 0
  {
    RunKeepsOk(b, t, es);
    EndsAreFinal(b, t, es);
    var b' := Run(b, es);
    assert RowsOk(b'.participations) && Vacated(b'.participations);
    hide ParticipationOk, OpenOrders, Run, HasOpen;
    forall p | p in b'.participations
      ensures p.status != Active && OpenOrders(p) == 0
    {
      SeatsAreActiveOrOpen(p);
      assert SeatOf(p) == 0;
      OpenNonNegative(p);
    }
  }

  lemma OpenNonNegative(p: Participation)
    ensures OpenOrders(p) >= 0
  {
    TotalNonNegative(p.orders, OpenOf);
  }

  predicate FullyReserved(o: PaymentOrder) {
    ReservedPrincipal(o) == o.principal && ReservedFee(o) == o.fee
  }

  lemma CancellationRows(b: Book, t: Time, c: Call, now: Time) returns (kind: MassKind)
    requires BookOk(b, t) && IsOver(Next(b, c, now)) && !IsOver(b)
    ensures var b' := Next(b, c, now);
      && |b'.participations| == |b.participations|
      && forall i :: 0 <= i < |b.participations| ==> MassCancel(b.participations[i], kind) == Ok(b'.participations[i])
  {
    hide BookOk, CancelEverything, RoundPercent, ActiveCount;
    NextCourse(b, t, c, now);
    PercentWithin(b.publish.principal, 70);
    match c
    case CancelByOrganizerCall =>
      kind := OrganizerCancellation;
      CancelEverythingKeepsOk(b, t, kind, b.publish.principal, b.publish.fee, CalledOff);
      CancelEverythingKeepsOk(b, t, kind, b.publish.principal, 0, CalledOff);
      CancelEverythingKeepsOk(b, t, kind, RoundPercent(b.publish.principal, 70), 0, CalledOff);
    case CancelByAdminCall =>
      kind := AdminCancellation;
      CancelEverythingKeepsOk(b, t, kind, b.publish.principal, b.publish.fee, CalledOff);
    case FailUnformedCall =>
      kind := FailedToForm;
      CancelEverythingKeepsOk(b, t, kind, b.publish.principal, b.publish.fee, NotFormed);
    case _ =>
  }

  // The order that gave a participant the seat is, later on, refunded in full.
  predicate SeatRefunded(p: Participation, later: Participation) {
    0 < |p.orders| <= |later.orders| && FullyReserved(later.orders[|p.orders| - 1])
  }

  predicate SeatsRefunded(b: Book, later: Book) {
    forall i :: 0 <= i < |b.participations| && b.participations[i].status == Active ==>
      i < |later.participations| && SeatRefunded(b.participations[i], later.participations[i])
  }

  lemma RowRefunded(p: Participation, kind: MassKind)
    requires ParticipationOk(p) && p.status == Active
    ensures MassCancel(p, kind).Ok? && SeatRefunded(p, MassCancel(p, kind).value)
  {
    MassCancelKeepsOk(p, kind);
    SeatTerms(p);
    SeatTerms(MassCancel(p, kind).value);
    MassCancelMoves(p, kind, p.principal, p.fee);
    RowMovedExtends(p, MassCancel(p, kind).value, p.principal, p.fee, true);
    hide ParticipationOk, MassCancel, RowMoved;
  }

  lemma SeatTerms(p: Participation)
    requires ParticipationOk(p)
    ensures p.orders != [] && Last(p).principal == p.principal && Last(p).fee == p.fee
  {
  }

  lemma CancellationRefundsSeats(b: Book, t: Time, c: Call, now: Time)
    requires BookOk(b, t) && IsOver(Next(b, c, now)) && !IsOver(b)
    ensures SeatsRefunded(b, Next(b, c, now))
  {
    var kind := CancellationRows(b, t, c, now);
    assert RowsOk(b.participations);
    hide BookOk, Next, ParticipationOk, MassCancel, SeatRefunded;
    forall i | 0 <= i < |b.participations| && b.participations[i].status == Active
      ensures SeatRefunded(b.participations[i], Next(b, c, now).participations[i])
    {
      RowRefunded(b.participations[i], kind);
    }
  }

  lemma RefundedStays(p: Participation, q: Participation, r: Participation)
    requires SeatRefunded(p, q) && RowExtends(q, r) && ParticipationOk(r)
    ensures SeatRefunded(p, r)
  {
    var k := |p.orders| - 1;
    assert OrderOk(r.orders[k]);
    ReservedNeverShrinks(q.orders[k], r.orders[k]);
    hide ParticipationOk;
  }

  /** When an activity is cancelled or fails to form, the order of everyone who had
      a seat is refunded in full, and whatever happens later it stays so. */
  lemma SeatsRefundedForever(b: Book, t: Time, c: Call, now: Time, es: seq<Event>)
    requires BookOk(b, t) && t <= now && Ordered(es, now)
    requires IsOver(Next(b, c, now)) && !IsOver(b)
    ensures SeatsRefunded(b, Run(Next(b, c, now), es))
  {
    CancellationRefundsSeats(b, t, c, now);
    NextKeepsOk(b, t, c, now);
    var b' := Next(b, c, now);
    RunExtends(b', now, es);
    RunKeepsOk(b', now, es);
    var last := Run(b', es);
    assert RowsOk(last.participations);
    hide BookOk, Next, Run, SeatRefunded, RowExtends, ParticipationOk;
    forall i | 0 <= i < |b.participations| && b.participations[i].status == Active
      ensures SeatRefunded(b.participations[i], last.participations[i])
    {
      RefundedStays(b.participations[i], b'.participations[i], last.participations[i]);
    }
  }

  // Refunds in every status together stay within each part of the payment and within
  // what the wallet and the channel each contributed.
  predicate WithinPaid(o: PaymentOrder) {
    && ReservedPrincipal(o) <= o.principal && ReservedFee(o) <= o.fee
    && (o.allocation.None? ==> Total(o.refunds, WalletOf) == 0)
    && (o.allocation.Some? && o.IsReleased() ==>
          Total(o.refunds, WalletOf) == 0 && Total(o.refunds, ExternalOf) <= o.allocation.value.external)
    && (o.allocation.Some? && !o.IsReleased() ==>
          && Total(o.refunds, WalletOf) == WalletTarget(o.allocation.value, ReservedAmount(o)) <= o.allocation.value.wallet
          && Total(o.refunds, ExternalOf) <= o.allocation.value.external)
  }

  lemma OrderWithinPaid(o: PaymentOrder)
    requires OrderOk(o)
    ensures WithinPaid(o)
  {
    LegsSum(o.refunds);
    AmountIsSum(o.refunds);
    if o.allocation.None? || o.IsReleased() {
      TotalIsZero(o.refunds, WalletOf);
    } else {
      TargetStep(o.allocation.value, ReservedAmount(o), 0);
    }
    hide LateOk, StageOk, ShapeOk, WalletTarget;
  }

  /** In every reachable state the refunds of an order, whoever made them and whatever
      became of them, stay within what was paid, part by part and leg by leg. */
  lemma ReservationsHold(b: Book, t: Time, es: seq<Event>)
    requires Opening(b) && Ordered(es, t)
    ensures forall p, o :: p in Run(b, es).participations && o in p.orders ==> WithinPaid(o)
  {
    OpeningOk(b, t);
    RunKeepsOk(b, t, es);
    assert RowsOk(Run(b, es).participations);
    hide Run, WithinPaid, OrderOk, BookOk;
    forall p, o | p in Run(b, es).participations && o in p.orders
      ensures WithinPaid(o)
    {
      assert ParticipationOk(p);
      OrderWithinPaid(o);
    }
  }

  // ----- formation -----

  predicate HasFormed(b: Book) { b.status in {Formed, InProgress, Completed} }

  /** While recruiting there are too few participants; before the deadline a formed
      activity has enough. */
  lemma FormationCounts(b: Book, t: Time, es: seq<Event>)
    requires Opening(b) && Ordered(es, t)
    ensures var b' := Run(b, es);
      && (b'.status == Recruiting ==> ActiveCount(b') < b.terms.minParticipants)
      && (b'.status == Formed && Clock(es, t) < b.terms.formationDeadline ==> ActiveCount(b') >= b.terms.minParticipants)
  {
    OpeningOk(b, t);
    RunKeepsOk(b, t, es);
    RunExtends(b, t, es);
    hide CoreOk, Run, ActiveCount, RowExtends;
  }

  /** Only an activity that at some moment had enough participants ever starts. */
  lemma {:induction false} OnceFullEnough(b: Book, t: Time, es: seq<Event>) returns (k: nat)
    requires Opening(b) && Ordered(es, t) && HasFormed(Run(b, es))
    ensures k <= |es| && Run(b, es[..k]).status == Formed
    ensures ActiveCount(Run(b, es[..k])) >= b.terms.minParticipants
  {
    hide BookOk, Next, ActiveCount, BookExtends;
    OpeningOk(b, t);
    var n := |es| - 1;
    RunKeepsOk(b, t, es[..n]);
    NextCourse(Run(b, es[..n]), Clock(es[..n], t), es[n].call, es[n].at);
    if HasFormed(Run(b, es[..n])) {
      k := OnceFullEnough(b, t, es[..n]);
      assert es[..n][..k] == es[..k];
    } else {
      k := |es|;
      assert es[..k] == es;
      RunTerms(b, t, es);
    }
  }

  lemma RunTerms(b: Book, t: Time, es: seq<Event>)
    requires BookOk(b, t) && Ordered(es, t)
    ensures Run(b, es).terms == b.terms
  {
    hide BookOk, Run, RowExtends;
    RunExtends(b, t, es);
  }

  // ----- the publishing payment and early ends -----

  /** Until an activity is rejected, cancelled or fails to form, nothing of its
      publishing payment is given back. */
  lemma {:induction false} PublishUntouched(b: Book, t: Time, es: seq<Event>)
    requires Opening(b) && Ordered(es, t) && !EndedEarly(Run(b, es))
    ensures Run(b, es).publish == b.publish
  {
    hide BookOk, Next;
    if es != [] {
      OpeningOk(b, t);
      var n := |es| - 1;
      RunKeepsOk(b, t, es[..n]);
      NextCourse(Run(b, es[..n]), Clock(es[..n], t), es[n].call, es[n].at);
      PublishUntouched(b, t, es[..n]);
    }
  }

  predicate Untouched(o: PublishOrder) { o.status == PublishPaid && o.refund.None? }

  lemma AdminCanCancel(b: Book, t: Time, now: Time)
    requires BookOk(b, t) && b.status in {Recruiting, Formed} && Untouched(b.publish)
    ensures Next(b, CancelByAdminCall, now).status == CalledOff
  {
    hide BookOk, CancelEverything;
    CancelEverythingKeepsOk(b, t, AdminCancellation, b.publish.principal, b.publish.fee, CalledOff);
  }

  lemma OrganizerCanCancel(b: Book, t: Time, now: Time)
    requires BookOk(b, t) && b.status in {Recruiting, Formed} && Untouched(b.publish) && now < b.terms.startsAt
    ensures Next(b, CancelByOrganizerCall, now).status == CalledOff
  {
    hide BookOk, CancelEverything, RoundPercent;
    PercentWithin(b.publish.principal, 70);
    CancelEverythingKeepsOk(b, t, OrganizerCancellation, b.publish.principal, b.publish.fee, CalledOff);
    CancelEverythingKeepsOk(b, t, OrganizerCancellation, b.publish.principal, 0, CalledOff);
    CancelEverythingKeepsOk(b, t, OrganizerCancellation, RoundPercent(b.publish.principal, 70), 0, CalledOff);
  }

  lemma UnformedFails(b: Book, t: Time, now: Time)
    requires BookOk(b, t) && b.status == Recruiting && Untouched(b.publish) && b.terms.formationDeadline <= now
    ensures Next(b, FailUnformedCall, now).status == NotFormed
  {
    hide BookOk, CancelEverything, ActiveCount;
    TooFew(b, t);
    CancelEverythingKeepsOk(b, t, FailedToForm, b.publish.principal, b.publish.fee, NotFormed);
  }

  lemma TooFew(b: Book, t: Time)
    requires BookOk(b, t) && b.status == Recruiting
    ensures ActiveCount(b) < b.terms.minParticipants
  {
    hide CoreOk, ActiveCount;
  }

  /** A running recruitment can always be ended: by the back office at any time, by
      the organizer until the start, and at the deadline if it has not formed. No
      participant, payment or case can hold it up, and the branch that would rescue an
      unformed activity at its deadline is never taken. */
  lemma CancellationNeverBlocked(b: Book, t: Time, es: seq<Event>, now: Time)
    requires Opening(b) && Ordered(es, t) && Clock(es, t) <= now
    requires Run(b, es).status in {Recruiting, Formed}
    ensures Next(Run(b, es), CancelByAdminCall, now).status == CalledOff
    ensures now < b.terms.startsAt ==> Next(Run(b, es), CancelByOrganizerCall, now).status == CalledOff
    ensures Run(b, es).status == Recruiting && b.terms.formationDeadline <= now ==> Next(Run(b, es), FailUnformedCall, now).status == NotFormed
  {
    OpeningOk(b, t);
    RunKeepsOk(b, t, es);
    RunTerms(b, t, es);
    PublishUntouched(b, t, es);
    var b' := Run(b, es);
    hide BookOk, Run, Next;
    AdminCanCancel(b', Clock(es, t), now);
    if now < b.terms.startsAt {
      OrganizerCanCancel(b', Clock(es, t), now);
    }
    if b'.status == Recruiting && b.terms.formationDeadline <= now {
      UnformedFails(b', Clock(es, t), now);
    }
  }

  /** The publishing payment given back in these amounts, over the legs it came by: the
      wallet gets its proportional share, and a full refund gives each side what it paid.
      A refund with nothing to carry out is done at once. */
  predicate PublishGivenBack(o: PublishOrder, q: PublishOrder, principal: int, fee: int) {
    && q.refund.Some? && q == o.(refund := q.refund, status := q.status)
    && var r := q.refund.value;
      && r.principal == principal && r.fee == fee && r.wallet + r.external == principal + fee
      && (o.allocation.None? ==> r.wallet == 0)
      && (o.allocation.Some? && LegsMatch(o.allocation.value) && o.allocation.value.payable == o.principal + o.fee > 0 ==>
            && r.wallet == (principal + fee) * o.allocation.value.wallet / o.allocation.value.payable
            && 0 <= r.wallet <= o.allocation.value.wallet && 0 <= r.external <= o.allocation.value.external
            && (principal == o.principal && fee == o.fee ==> r.wallet == o.allocation.value.wallet))
      && (r.pending <==> principal + fee != 0 && (o.viaChannel || r.wallet != 0))
      && (r.pending ==> q.status == o.status)
      && (!r.pending ==> q.status == if principal == o.principal && fee == o.fee then PublishRefunded else PublishPartlyRefunded)
  }

  lemma RefundPublishGivesBack(o: PublishOrder, principal: int, fee: int)
    requires PublishOk(o) && o.refund.None? && 0 <= principal <= o.principal && 0 <= fee <= o.fee
    ensures RefundPublish(o, principal, fee).Ok? && PublishGivenBack(o, RefundPublish(o, principal, fee).value, principal, fee)
  {
    RefundPublishKeepsOk(o, principal, fee);
    if o.allocation.Some? && LegsMatch(o.allocation.value) && o.allocation.value.payable == o.principal + o.fee > 0 {
      var a := o.allocation.value;
      TargetIsFloor(a, principal + fee);
      TargetOfNothing(a);
      TargetStep(a, 0, principal + fee);
      TargetStep(a, principal + fee, 0);
    }
    hide WalletTarget;
  }

  // The publishing refund of a cancellation by the organizer.
  predicate OrganizerRefund(b: Book, o: PublishOrder, now: Time) {
    && o.refund.Some?
    && var r := o.refund.value;
      && PublishGivenBack(b.publish, o, r.principal, r.fee)
      && (now - b.publishedAt <= 12 * 3600 ==> r.principal == b.publish.principal && r.fee == b.publish.fee)
      && (now - b.publishedAt > 12 * 3600 ==> r.fee == 0)
      && (b.terms.startsAt - now >= 6 * 3600 ==> r.principal == b.publish.principal)
      && (now - b.publishedAt > 12 * 3600 && b.terms.startsAt - now < 6 * 3600 ==>
            7 * b.publish.principal - 5 <= 10 * r.principal <= 7 * b.publish.principal + 5)
  }

  lemma CancelRefunds(b: Book, now: Time)
    requires CancelByOrganizer(b, now).Ok? && Untouched(b.publish) && PublishOk(b.publish)
    ensures OrganizerRefund(b, CancelByOrganizer(b, now).value.publish, now)
  {
    PercentWithin(b.publish.principal, 70);
    RefundPublishGivesBack(b.publish, b.publish.principal, b.publish.fee);
    RefundPublishGivesBack(b.publish, b.publish.principal, 0);
    RefundPublishGivesBack(b.publish, RoundPercent(b.publish.principal, 70), 0);
    hide CancelRows, RefundPublish, PublishGivenBack, PublishOk;
  }

  lemma OrganizerCall(b: Book, now: Time)
    ensures Next(b, CancelByOrganizerCall, now) == (if CancelByOrganizer(b, now).Ok? then CancelByOrganizer(b, now).value else b)
  {
    hide CancelByOrganizer;
  }

  /** What the organizer gets back of the publishing payment on cancelling: all of it
      within 12 hours of publishing, the principal until 6 hours before the start,
      and after that 70 percent of the principal, to the nearest unit. */
  lemma OrganizerGetsBack(b: Book, t: Time, es: seq<Event>, now: Time)
    requires Opening(b) && Ordered(es, t) && Clock(es, t) <= now
    requires Run(b, es).status in {Recruiting, Formed} && now < b.terms.startsAt
    ensures OrganizerRefund(Run(b, es), Next(Run(b, es), CancelByOrganizerCall, now).publish, now)
  {
    CancellationNeverBlocked(b, t, es, now);
    PublishUntouched(b, t, es);
    assert PublishOk(b.publish);
    hide Run, CancelByOrganizer, OrganizerRefund, Ordered, Opening;
    OrganizerCall(Run(b, es), now);
    hide Next;
    CancelRefunds(Run(b, es), now);
  }

  lemma CancelGivesAllBack(b: Book, kind: MassKind, status: ActivityStatus)
    requires PublishOk(b.publish) && b.publish.refund.None?
    requires CancelEverything(b, kind, b.publish.principal, b.publish.fee, status).Ok?
    ensures PublishGivenBack(b.publish, CancelEverything(b, kind, b.publish.principal, b.publish.fee, status).value.publish, b.publish.principal, b.publish.fee)
  {
    RefundPublishGivesBack(b.publish, b.publish.principal, b.publish.fee);
    hide CancelRows, RefundPublish, PublishGivenBack;
  }

  // The call ended the activity and gave all of its publishing payment back.
  predicate EndsWithFullRefund(b: Book, b': Book, status: ActivityStatus) {
    b'.status == status && PublishGivenBack(b.publish, b'.publish, b.publish.principal, b.publish.fee)
  }

  lemma AdminGivesAllBack(b: Book, t: Time, now: Time)
    requires BookOk(b, t) && Untouched(b.publish)
    ensures var b' := Next(b, CancelByAdminCall, now);
      if b.status in {Recruiting, Formed} then EndsWithFullRefund(b, b', CalledOff) else b' == b
  {
    hide BookOk, CancelEverything, PublishGivenBack;
    if b.status in {Recruiting, Formed} {
      CancelEverythingKeepsOk(b, t, AdminCancellation, b.publish.principal, b.publish.fee, CalledOff);
      assert PublishOk(b.publish) by { PublishStaysOk(b, t); }
      CancelGivesAllBack(b, AdminCancellation, CalledOff);
    }
  }

  lemma PublishStaysOk(b: Book, t: Time)
    requires BookOk(b, t)
    ensures PublishOk(b.publish)
  {
    hide RowsOk, UsersDistinct, LifecycleOk, SettlementOk, FormationOk;
  }

  lemma DeadlineGivesAllBack(b: Book, t: Time, now: Time)
    requires BookOk(b, t) && Untouched(b.publish)
    ensures var b' := Next(b, FailUnformedCall, now);
      if b.status == Recruiting && b.terms.formationDeadline <= now then EndsWithFullRefund(b, b', NotFormed) else b' == b
  {
    hide BookOk, CancelEverything, PublishGivenBack, ActiveCount;
    if b.status == Recruiting {
      TooFew(b, t);
      CancelEverythingKeepsOk(b, t, FailedToForm, b.publish.principal, b.publish.fee, NotFormed);
      assert PublishOk(b.publish) by { PublishStaysOk(b, t); }
      CancelGivesAllBack(b, FailedToForm, NotFormed);
    }
  }

  lemma RejectionGivesAllBack(b: Book, t: Time, now: Time)
    requires BookOk(b, t) && Untouched(b.publish)
    ensures var b' := Next(b, ReviewRejectCall, now);
      if b.status == UnderReview then EndsWithFullRefund(b, b', Rejected) && b'.participations == [] else b' == b
  {
    assert b.status == UnderReview ==> b.participations == [];
    assert PublishOk(b.publish);
    hide BookOk, RefundPublish, PublishGivenBack, PublishOk;
    RefundPublishGivesBack(b.publish, b.publish.principal, b.publish.fee);
  }

  /** An activity that the back office cancels, that fails to form at its deadline or
      that is rejected ends so, and its organizer gets the whole publishing payment
      back. Each of these calls has no other effect and ends nothing else. */
  lemma OrganizerGetsAllBack(b: Book, t: Time, es: seq<Event>, now: Time)
    requires Opening(b) && Ordered(es, t) && Clock(es, t) <= now && !EndedEarly(Run(b, es))
    ensures var r, b' := Run(b, es), Next(Run(b, es), CancelByAdminCall, now);
      if r.status in {Recruiting, Formed} then EndsWithFullRefund(b, b', CalledOff) else b' == r
    ensures var r, b' := Run(b, es), Next(Run(b, es), FailUnformedCall, now);
      if r.status == Recruiting && b.terms.formationDeadline <= now then EndsWithFullRefund(b, b', NotFormed) else b' == r
    ensures var r, b' := Run(b, es), Next(Run(b, es), ReviewRejectCall, now);
      if r.status == UnderReview then EndsWithFullRefund(b, b', Rejected) else b' == r
  {
    OpeningOk(b, t);
    RunKeepsOk(b, t, es);
    RunTerms(b, t, es);
    PublishUntouched(b, t, es);
    assert Untouched(b.publish);
    hide BookOk, Run, Next, PublishGivenBack, Ordered, Opening;
    AdminGivesAllBack(Run(b, es), Clock(es, t), now);
    DeadlineGivesAllBack(Run(b, es), Clock(es, t), now);
    RejectionGivesAllBack(Run(b, es), Clock(es, t), now);
  }
}
