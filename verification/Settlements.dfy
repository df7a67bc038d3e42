/** What the organizer is owed once the activity is over. */
module Settlements {
  import opened Wrappers
  import opened Totals
  import opened WalletAllocations
  import opened PaymentOrders
  import opened Participations

  predicate CountsAsPaid(o: PaymentOrder) { o.IsPaid() && o.paidAt.Some? }

  function CurrentOrder(p: Participation): Option<nat> {
    if p.status == Active then Newest(p.orders, CountsAsPaid) else None
  }

  function NetPrincipal(o: PaymentOrder): int { Max(0, o.principal - SucceededPrincipal(o)) }

  function NetFee(o: PaymentOrder): int { Max(0, o.fee - SucceededFee(o)) }

  // The part of a cancelled order that its cancellation left to the organizer.
  function RetainedOf(o: PaymentOrder): int { Min(NetPrincipal(o), Total(o.refunds, DeclaredOf)) }

  datatype Sums = Sums(participant: int, retained: int, unallocated: int, fee: int)

  function AddOrder(s: Sums, o: PaymentOrder, current: bool): Sums {
    if !CountsAsPaid(o) then s
    else if current then s.(participant := s.participant + NetPrincipal(o), fee := s.fee + NetFee(o))
    else
      s.(retained := s.retained + RetainedOf(o),
         unallocated := s.unallocated + Max(0, NetPrincipal(o) - RetainedOf(o)),
         fee := s.fee + NetFee(o))
  }

  // The running sums once n orders of a participation have been added to s.
  function AddOrders(s: Sums, p: Participation, n: nat): Sums
    requires n <= |p.orders|
  {
    if n == 0 then s else AddOrder(AddOrders(s, p, n - 1), p.orders[n - 1], CurrentOrder(p) == Some(n - 1))
  }

  function AddParticipations(s: Sums, ps: seq<Participation>, n: nat): Sums
    requires n <= |ps|
  {
    if n == 0 then s else AddOrders(AddParticipations(s, ps, n - 1), ps[n - 1], |ps[n - 1].orders|)
  }

  // ----- the publishing payment -----

  datatype PublishStatus = PublishPaid | PublishPartlyRefunded | PublishRefunded

  datatype PublishRefund = PublishRefund(principal: nat, fee: nat, wallet: int, external: int, pending: bool)

  /** The organizer's own payment; at most one refund record is ever made for it. */
  datatype PublishOrder = PublishOrder(
    principal: nat,
    fee: nat,
    allocation: Option<Allocation>,
    viaChannel: bool,
    status: PublishStatus,
    refund: Option<PublishRefund>)

  function RefundPublish(o: PublishOrder, principal: int, fee: int): Result<PublishOrder> {
    if !(0 <= principal <= o.principal) || !(0 <= fee <= o.fee) then Refused(AmountInvalid)
    else
      var legs :- Route(o.allocation, principal + fee, 0, 0);
      if o.refund.Some? then Ok(o)
      else
        var pending := principal + fee != 0 && (o.viaChannel || legs.wallet != 0);
        var status :=
          if pending then o.status
          else if principal + fee == o.principal + o.fee then PublishRefunded
          else PublishPartlyRefunded;
        Ok(o.(refund := Some(PublishRefund(principal, fee, legs.wallet, legs.external, pending)), status := status))
  }

  function PublishPrincipalRefunded(o: PublishOrder): int { if o.refund.Some? then o.refund.value.principal else 0 }

  function PublishFeeRefunded(o: PublishOrder): int { if o.refund.Some? then o.refund.value.fee else 0 }

  predicate PublishOk(o: PublishOrder) {
    && PublishPrincipalRefunded(o) <= o.principal
    && PublishFeeRefunded(o) <= o.fee
    && (o.allocation.Some? ==> !o.allocation.value.walletReleased)
  }

  // ----- the calculation -----

  datatype Amounts = Amounts(
    organizer: int,
    participant: int,
    retained: int,
    settlement: int,
    serviceFee: int,
    unallocated: int)

  function Calculate(publish: PublishOrder, ps: seq<Participation>): Amounts {
    var organizer := Max(0, publish.principal - PublishPrincipalRefunded(publish));
    var fee := Max(0, publish.fee - PublishFeeRefunded(publish));
    var s := AddParticipations(Sums(0, 0, 0, fee), ps, |ps|);
    Amounts(organizer, s.participant, s.retained, organizer + s.participant + s.retained, s.fee, s.unallocated)
  }

  // ----- nominal totals -----

  function PaidPrincipalOf(o: PaymentOrder): int { if CountsAsPaid(o) then o.principal else 0 }
  function PaidFeeOf(o: PaymentOrder): int { if CountsAsPaid(o) then o.fee else 0 }
  function ReturnedPrincipalOf(o: PaymentOrder): int { SucceededPrincipal(o) }
  function ReturnedFeeOf(o: PaymentOrder): int { SucceededFee(o) }
  function ReservedPrincipalOf(o: PaymentOrder): int { ReservedPrincipal(o) }

  function PaidPrincipal(p: Participation): int { Total(p.orders, PaidPrincipalOf) }
  function PaidFee(p: Participation): int { Total(p.orders, PaidFeeOf) }
  function ReturnedPrincipal(p: Participation): int { Total(p.orders, ReturnedPrincipalOf) }
  function ReturnedFee(p: Participation): int { Total(p.orders, ReturnedFeeOf) }
  function ReservedPrincipals(p: Participation): int { Total(p.orders, ReservedPrincipalOf) }
}
