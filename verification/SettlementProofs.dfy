/** The settlement amounts add up, and never promise money that may be refunded. */
module SettlementProofs {
  import opened Wrappers
  import opened Totals
  import opened WalletAllocations
  import opened PaymentOrders
  import opened OrderInvariants
  import opened Participations
  import opened ParticipationInvariants
  import opened Settlements

  lemma SucceededWithinReserved(o: PaymentOrder)
    requires ReservationOk(o)
    ensures SucceededPrincipal(o) <= ReservedPrincipal(o) <= o.principal
    ensures SucceededFee(o) <= ReservedFee(o) <= o.fee
  {
    TotalLeq(o.refunds, SucceededPrincipalOf, PrincipalOf);
    TotalLeq(o.refunds, SucceededFeeOf, FeeOf);
  }

  lemma DeclaredNonNegative(o: PaymentOrder)
    requires ShapeOk(o) && ReservationOk(o)
    ensures Total(o.refunds, DeclaredOf) >= 0
  {
    forall r | r in o.refunds
      ensures DeclaredOf(r) >= 0
    {
      var i :| 0 <= i < |o.refunds| && o.refunds[i] == r;
      TotalAtLeastOne(o.refunds, i, PrincipalOf);
    }
    TotalNonNegative(o.refunds, DeclaredOf);
  }

  // No `max(0, ...)` in the calculation ever clips.
  lemma NothingClips(o: PaymentOrder)
    requires OrderOk(o)
    ensures NetPrincipal(o) == o.principal - SucceededPrincipal(o)
    ensures NetFee(o) == o.fee - SucceededFee(o)
    ensures 0 <= RetainedOf(o) <= NetPrincipal(o)
    ensures Max(0, NetPrincipal(o) - RetainedOf(o)) == NetPrincipal(o) - RetainedOf(o)
    ensures !CountsAsPaid(o) ==> SucceededPrincipal(o) == 0 && SucceededFee(o) == 0
  {
    SucceededWithinReserved(o);
    DeclaredNonNegative(o);
  }

  function Spread(s: Sums): int { s.participant + s.retained + s.unallocated }

  lemma OrderConserves(s: Sums, o: PaymentOrder, current: bool)
    requires OrderOk(o)
    ensures var t := AddOrder(s, o, current);
      && Spread(t) + SucceededPrincipal(o) == Spread(s) + PaidPrincipalOf(o)
      && t.fee + SucceededFee(o) == s.fee + PaidFeeOf(o)
  {
    NothingClips(o);
  }

  lemma {:induction false} OrdersConserve(s: Sums, p: Participation, n: nat)
    requires n <= |p.orders| && forall o :: o in p.orders ==> OrderOk(o)
    ensures var t := AddOrders(s, p, n);
      && Spread(t) + Total(p.orders[..n], ReturnedPrincipalOf) == Spread(s) + Total(p.orders[..n], PaidPrincipalOf)
      && t.fee + Total(p.orders[..n], ReturnedFeeOf) == s.fee + Total(p.orders[..n], PaidFeeOf)
  {
    hide OrderOk, AddOrder;
    if n > 0 {
      OrdersConserve(s, p, n - 1);
      OrderConserves(AddOrders(s, p, n - 1), p.orders[n - 1], CurrentOrder(p) == Some(n - 1));
      assert p.orders[..n][..n - 1] == p.orders[..n - 1];
    }
  }

  lemma {:induction false} ParticipationsConserve(s: Sums, ps: seq<Participation>, n: nat)
    requires n <= |ps| && forall p :: p in ps ==> ParticipationOk(p)
    ensures var t := AddParticipations(s, ps, n);
      && Spread(t) + Total(ps[..n], ReturnedPrincipal) == Spread(s) + Total(ps[..n], PaidPrincipal)
      && t.fee + Total(ps[..n], ReturnedFee) == s.fee + Total(ps[..n], PaidFee)
  {
    hide OrderOk, AddOrders;
    if n > 0 {
      ParticipationsConserve(s, ps, n - 1);
      var p := ps[n - 1];
      assert ParticipationOk(p);
      OrdersConserve(AddParticipations(s, ps, n - 1), p, |p.orders|);
      assert p.orders[..|p.orders|] == p.orders;
      assert ps[..n][..n - 1] == ps[..n - 1];
    }
  }

  /** Conservation: what the organizer gets, what nobody is owed and what has been
      returned make up exactly what was paid, for the principal and for the fee. */
  lemma SettlementConserves(publish: PublishOrder, ps: seq<Participation>)
    requires PublishOk(publish) && forall p :: p in ps ==> ParticipationOk(p)
    ensures var a := Calculate(publish, ps);
      && a.settlement + a.unallocated + Total(ps, ReturnedPrincipal) + PublishPrincipalRefunded(publish)
         == Total(ps, PaidPrincipal) + publish.principal
      && a.serviceFee + Total(ps, ReturnedFee) + PublishFeeRefunded(publish)
         == Total(ps, PaidFee) + publish.fee
      && a.settlement == a.organizer + a.participant + a.retained
  {
    hide ParticipationOk;
    var fee := Max(0, publish.fee - PublishFeeRefunded(publish));
    ParticipationsConserve(Sums(0, 0, 0, fee), ps, |ps|);
    assert ps[..|ps|] == ps;
  }

  // ----- the payout never exceeds what may still be kept -----

  // With every after-sales case closed, all refunds of a cancelled order that left
  // principal to the organizer have succeeded.
  lemma DeclaredMeansFinished(p: Participation, i: nat)
    requires ParticipationOk(p) && !HasOpenCase(p) && i < |p.orders|
    requires Total(p.orders[i].refunds, DeclaredOf) > 0
    ensures forall r :: r in p.orders[i].refunds ==> r.status == RefundSucceeded
    ensures !IsLate(p.orders[i])
    ensures p.orders[i].refunds != [] && Total(p.orders[i].refunds, DeclaredOf) == p.orders[i].principal - p.orders[i].refunds[0].principal
  {
    var o := p.orders[i];
    assert OrderOk(o);
    assert ShapeOk(o);
    hide OrderOk;
    DeclaredIsFirst(o);
    forall r | r in o.refunds
      ensures r.status == RefundSucceeded
    {
      var j :| 0 <= j < |o.refunds| && o.refunds[j] == r;
      if j > 0 {
        assert KeyOk(p, i, j);
        var c := p.cases[r.key.caseNo];
        assert c in p.cases;
        assert !CaseIsOpen(p, c);
      }
    }
  }

  lemma DeclaredIsFirst(o: PaymentOrder)
    requires ShapeOk(o) && Total(o.refunds, DeclaredOf) > 0
    ensures o.refunds != [] && o.refunds[0].status == RefundSucceeded && !IsLate(o)
    ensures Total(o.refunds, DeclaredOf) == o.principal - o.refunds[0].principal
  {
    var rest := o.refunds[1..];
    assert o.refunds[0] in o.refunds;
    TotalSplitFirst(o.refunds, DeclaredOf);
    TotalIsZero(rest, DeclaredOf);
  }

  lemma {:induction false} TotalSplitFirst<T>(s: seq<T>, f: T -> int)
    requires s != []
    ensures Total(s, f) == f(s[0]) + Total(s[1..], f)
  {
    var n := |s| - 1;
    if n > 0 {
      TotalSplitFirst(s[..n], f);
      assert s[..n][1..] == s[1..][..n - 1];
    }
  }

  // One order's share of the payout is principal that no refund has reserved.
  lemma ShareWithinMargin(p: Participation, i: nat)
    requires ParticipationOk(p) && !HasOpenCase(p) && i < |p.orders|
    ensures CountsAsPaid(p.orders[i]) ==>
      (if CurrentOrder(p) == Some(i) then NetPrincipal(p.orders[i]) else RetainedOf(p.orders[i])) <= OrderMargin(p.orders[i])
    ensures OrderMargin(p.orders[i]) >= 0
  {
    var o := p.orders[i];
    assert OrderOk(o);
    NothingClips(o);
    SucceededWithinReserved(o);
    hide OrderOk;
    if CountsAsPaid(o) {
      if CurrentOrder(p) == Some(i) {
        CurrentIsLast(p);
      } else if Total(o.refunds, DeclaredOf) > 0 {
        DeclaredMeansFinished(p, i);
        TotalSame(o.refunds, SucceededPrincipalOf, PrincipalOf);
        TotalAtLeastOne(o.refunds, 0, PrincipalOf);
      }
    }
  }

  lemma CurrentIsLast(p: Participation)
    requires ParticipationOk(p) && p.status == Active
    ensures CurrentOrder(p) == Some(|p.orders| - 1)
    ensures Last(p).refunds == []
  {
    assert OrderOk(Last(p));
    assert CountsAsPaid(Last(p));
  }

  lemma {:induction false} OrdersWithinMargin(s: Sums, p: Participation, n: nat)
    requires ParticipationOk(p) && !HasOpenCase(p) && n <= |p.orders|
    ensures var t := AddOrders(s, p, n);
      t.participant + t.retained <= s.participant + s.retained + Total(p.orders[..n], OrderMargin)
  {
    hide ParticipationOk, HasOpenCase, OrderMargin;
    if n > 0 {
      OrdersWithinMargin(s, p, n - 1);
      ShareWithinMargin(p, n - 1);
      assert p.orders[..n][..n - 1] == p.orders[..n - 1];
    }
  }

  lemma {:induction false} PayoutWithinMargin(s: Sums, ps: seq<Participation>, n: nat)
    requires n <= |ps|
    requires forall p :: p in ps ==> ParticipationOk(p) && !HasOpenCase(p)
    ensures var t := AddParticipations(s, ps, n);
      t.participant + t.retained <= s.participant + s.retained + Total(ps[..n], MarginOf)
  {
    hide ParticipationOk, HasOpenCase, AddOrders;
    if n > 0 {
      PayoutWithinMargin(s, ps, n - 1);
      var p := ps[n - 1];
      assert ParticipationOk(p) && !HasOpenCase(p);
      OrdersWithinMargin(AddParticipations(s, ps, n - 1), p, |p.orders|);
      assert p.orders[..|p.orders|] == p.orders;
      assert ps[..n][..n - 1] == ps[..n - 1];
    }
  }

  /** With no after-sales case open, the payout is covered by principal that is
      paid and that no refund, in whatever status, has reserved. */
  lemma PayoutIsCovered(publish: PublishOrder, ps: seq<Participation>)
    requires PublishOk(publish)
    requires forall p :: p in ps ==> ParticipationOk(p) && !HasOpenCase(p)
    ensures Calculate(publish, ps).settlement <= Total(ps, MarginOf) + publish.principal - PublishPrincipalRefunded(publish)
  {
    hide ParticipationOk, HasOpenCase;
    var fee := Max(0, publish.fee - PublishFeeRefunded(publish));
    PayoutWithinMargin(Sums(0, 0, 0, fee), ps, |ps|);
    assert ps[..|ps|] == ps;
  }

  // ----- cash -----

  /** What a paid order has brought in: the channel's part, and the wallet's unless the
      hold was released. */
  function CashIn(o: PaymentOrder): int {
    if !o.IsPaid() then 0
    else if o.allocation.None? then o.Payable()
    else o.allocation.value.external + (if o.IsReleased() then 0 else o.allocation.value.wallet)
  }

  // The service fee of an order paid in time that no refund has reserved.
  function KeptFee(o: PaymentOrder): int { if o.IsPaid() && !IsLate(o) then o.fee - ReservedFee(o) else 0 }

  function ReservedAmountOf(o: PaymentOrder): int { ReservedAmount(o) }

  function CashTaken(p: Participation): int { Total(p.orders, CashIn) }
  function KeptFees(p: Participation): int { Total(p.orders, KeptFee) }
  function ReservedAmounts(p: Participation): int { Total(p.orders, ReservedAmountOf) }

  // A late order has given back, or reserved to give back, all it brought in.
  lemma LateGivesAllBack(o: PaymentOrder)
    requires OrderOk(o) && o.IsPaid() && IsLate(o)
    ensures CashIn(o) == Captured(o) == ReservedAmount(o)
  {
    forall r | r in o.refunds
      ensures AmountOf(r) >= 0
    {
    }
    TotalAtLeastOne(o.refunds, 0, AmountOf);
    AmountIsSum(o.refunds);
    hide ShapeOk, ReceiptsOk, WalletTarget;
  }

  lemma CashOfOrder(o: PaymentOrder)
    requires OrderOk(o)
    ensures CashIn(o) == ReservedAmount(o) + OrderMargin(o) + KeptFee(o)
    ensures OrderMargin(o) <= PaidPrincipalOf(o) - ReservedPrincipal(o)
    ensures KeptFee(o) >= 0
  {
    AmountIsSum(o.refunds);
    if o.IsPaid() && IsLate(o) {
      LateGivesAllBack(o);
    }
    hide RoutesOk, ReceiptsOk, ShapeOk, WalletTarget;
  }

  lemma {:induction false} CashOfOrders(orders: seq<PaymentOrder>)
    requires forall o :: o in orders ==> OrderOk(o)
    ensures Total(orders, CashIn) == Total(orders, ReservedAmountOf) + Total(orders, OrderMargin) + Total(orders, KeptFee)
    ensures Total(orders, OrderMargin) <= Total(orders, PaidPrincipalOf) - Total(orders, ReservedPrincipalOf)
    ensures Total(orders, KeptFee) >= 0
  {
    hide OrderOk, CashIn, OrderMargin, KeptFee, PaidPrincipalOf;
    if orders != [] {
      CashOfOrders(orders[..|orders| - 1]);
      CashOfOrder(orders[|orders| - 1]);
    }
  }

  /** All cash that came in is reserved for refunds, or is margin the organizer may be
      paid from, or is kept as service fee. */
  lemma {:induction false} CashAddsUp(ps: seq<Participation>)
    requires forall p :: p in ps ==> ParticipationOk(p)
    ensures Total(ps, CashTaken) == Total(ps, ReservedAmounts) + Total(ps, MarginOf) + Total(ps, KeptFees)
    ensures Total(ps, MarginOf) <= Total(ps, PaidPrincipal) - Total(ps, ReservedPrincipals)
    ensures Total(ps, KeptFees) >= 0
  {
    hide OrderOk;
    if ps != [] {
      CashAddsUp(ps[..|ps| - 1]);
      var p := ps[|ps| - 1];
      assert ParticipationOk(p);
      CashOfOrders(p.orders);
    }
  }

  // ----- whose money it is -----

  function SeatPrincipal(p: Participation): int { if p.status == Active then p.principal else 0 }

  lemma SeatPrincipalIsNet(p: Participation)
    requires ParticipationOk(p) && p.status == Active
    ensures CurrentOrder(p) == Some(|p.orders| - 1) && CountsAsPaid(Last(p)) && NetPrincipal(Last(p)) == p.principal
  {
    CurrentIsLast(p);
    assert OrderOk(Last(p));
    NothingClips(Last(p));
    assert CountsAsPaid(Last(p));
    hide OrderOk;
  }

  lemma {:induction false} OrdersOfSeat(s: Sums, p: Participation, n: nat)
    requires ParticipationOk(p) && n <= |p.orders|
    ensures AddOrders(s, p, n).participant == s.participant + (if n == |p.orders| then SeatPrincipal(p) else 0)
  {
    hide ParticipationOk, NetPrincipal, NetFee, RetainedOf, CountsAsPaid, CurrentOrder;
    if p.status == Active {
      SeatPrincipalIsNet(p);
    } else {
      assert CurrentOrder(p).None? by { NoSeatNoCurrent(p); }
    }
    if n > 0 {
      OrdersOfSeat(s, p, n - 1);
    } else {
      assert p.orders != [] by { HasOrders(p); }
    }
  }

  lemma NoSeatNoCurrent(p: Participation)
    requires p.status != Active
    ensures CurrentOrder(p).None?
  {
  }

  lemma HasOrders(p: Participation)
    requires ParticipationOk(p)
    ensures p.orders != []
  {
  }

  lemma {:induction false} SeatsPaidFor(s: Sums, ps: seq<Participation>, n: nat)
    requires n <= |ps| && forall p :: p in ps ==> ParticipationOk(p)
    ensures AddParticipations(s, ps, n).participant == s.participant + Total(ps[..n], SeatPrincipal)
  {
    hide ParticipationOk, AddOrders;
    if n > 0 {
      SeatsPaidFor(s, ps, n - 1);
      OrdersOfSeat(AddParticipations(s, ps, n - 1), ps[n - 1], |ps[n - 1].orders|);
      assert ps[..n][..n - 1] == ps[..n - 1];
    }
  }

  /** The participants' part of the payout is the full principal of everyone who still
      has a seat, and of nobody else. */
  lemma ParticipantShare(publish: PublishOrder, ps: seq<Participation>)
    requires forall p :: p in ps ==> ParticipationOk(p)
    ensures Calculate(publish, ps).participant == Total(ps, SeatPrincipal)
  {
    hide ParticipationOk, AddParticipations;
    SeatsPaidFor(Sums(0, 0, 0, Max(0, publish.fee - PublishFeeRefunded(publish))), ps, |ps|);
    assert ps[..|ps|] == ps;
  }

  /** What an order leaves to the organizer: nothing, unless its participant gave up the
      seat by a rule that withheld principal and was refunded the rest. Then it is the
      principal that has not been given back since. */
  function LeftToOrganizer(o: PaymentOrder): int {
    if o.refunds != [] && o.refunds[0].toOrganizer && o.refunds[0].status == RefundSucceeded then o.principal - SucceededPrincipal(o) else 0
  }

  function LeftBehind(p: Participation): int { Total(p.orders, LeftToOrganizer) }

  lemma LeftIsDeclared(o: PaymentOrder)
    requires OrderOk(o)
    ensures LeftToOrganizer(o) ==
      Min(o.principal - SucceededPrincipal(o), Total(o.refunds, (r: Refund) => if r.status == RefundSucceeded && r.toOrganizer then r.retained else 0))
    ensures LeftToOrganizer(o) == RetainedOf(o)
    ensures !CountsAsPaid(o) || o.refunds == [] ==> LeftToOrganizer(o) == 0
  {
    var declared := (r: Refund) => if r.status == RefundSucceeded && r.toOrganizer then r.retained else 0;
    TotalSame(o.refunds, DeclaredOf, declared);
    NothingClips(o);
    if o.refunds != [] {
      TotalSplitFirst(o.refunds, DeclaredOf);
      TotalIsZero(o.refunds[1..], DeclaredOf);
      TotalAtLeastOne(o.refunds, 0, SucceededPrincipalOf);
      assert o.refunds[0] in o.refunds;
    }
    hide RoutesOk, ReceiptsOk, LateOk, ReservationOk;
  }

  lemma {:induction false} OrdersLeft(s: Sums, p: Participation, n: nat)
    requires ParticipationOk(p) && n <= |p.orders|
    ensures AddOrders(s, p, n).retained == s.retained + Total(p.orders[..n], LeftToOrganizer)
  {
    hide ParticipationOk, NetPrincipal, NetFee, RetainedOf, CountsAsPaid, CurrentOrder, LeftToOrganizer;
    if n > 0 {
      OrdersLeft(s, p, n - 1);
      assert p.orders[..n][..n - 1] == p.orders[..n - 1];
      OrderLeft(p, n - 1);
    }
  }

  lemma OrderLeft(p: Participation, i: nat)
    requires ParticipationOk(p) && i < |p.orders|
    ensures LeftToOrganizer(p.orders[i]) == if CountsAsPaid(p.orders[i]) && CurrentOrder(p) != Some(i) then RetainedOf(p.orders[i]) else 0
  {
    LeftIsDeclared(p.orders[i]);
    if p.status == Active {
      CurrentIsLast(p);
    } else {
      NoSeatNoCurrent(p);
    }
    hide OrderOk;
  }

  lemma {:induction false} RowsLeft(s: Sums, ps: seq<Participation>, n: nat)
    requires n <= |ps| && forall p :: p in ps ==> ParticipationOk(p)
    ensures AddParticipations(s, ps, n).retained == s.retained + Total(ps[..n], LeftBehind)
  {
    hide ParticipationOk, AddOrders, LeftToOrganizer;
    if n > 0 {
      RowsLeft(s, ps, n - 1);
      var p := ps[n - 1];
      OrdersLeft(AddParticipations(s, ps, n - 1), p, |p.orders|);
      assert p.orders[..|p.orders|] == p.orders;
      assert ps[..n][..n - 1] == ps[..n - 1];
    }
  }

  /** The payout to the unit: what is left of the organizer's own payment, the principal
      of everyone who has a seat, and what those who gave theirs up left behind. */
  lemma PayoutExactly(publish: PublishOrder, ps: seq<Participation>)
    requires PublishOk(publish) && forall p :: p in ps ==> ParticipationOk(p)
    ensures var a := Calculate(publish, ps);
      && a.organizer == publish.principal - PublishPrincipalRefunded(publish)
      && a.participant == Total(ps, SeatPrincipal)
      && a.retained == Total(ps, LeftBehind)
      && a.settlement == a.organizer + a.participant + a.retained
  {
    hide ParticipationOk, AddParticipations;
    ParticipantShare(publish, ps);
    RowsLeft(Sums(0, 0, 0, Max(0, publish.fee - PublishFeeRefunded(publish))), ps, |ps|);
    assert ps[..|ps|] == ps;
  }
}
