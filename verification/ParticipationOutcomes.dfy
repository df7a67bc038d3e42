/** What leaving an activity gives back: by the cancellation rules, by a mass
    cancellation and by an after-sales decision. */
module ParticipationOutcomes {
  import opened Wrappers
  import opened Totals
  import opened WalletAllocations
  import opened PaymentOrders
  import opened OrderInvariants
  import opened OrderMoves
  import opened Participations
  import opened ParticipationInvariants

  // ----- the rule that applies -----

  predicate Meets(rule: RefundRule, secondsBefore: int) { secondsBefore >= 3600 * rule.beforeHours }

  /** The rule applied is the met rule with the longest notice, the first of its kind;
      with no rule met, nothing is given back. */
  lemma {:induction false} RuleWithLongestNotice(rules: seq<RefundRule>, secondsBefore: int) returns (k: int)
    ensures k == -1 || 0 <= k < |rules|
    ensures k == -1 <==> forall r :: r in rules ==> !Meets(r, secondsBefore)
    ensures k == -1 ==> MatchRule(rules, secondsBefore) == RefundRule(0, 0, 0)
    ensures k >= 0 ==>
      && MatchRule(rules, secondsBefore) == rules[k] && Meets(rules[k], secondsBefore)
      && (forall j :: 0 <= j < |rules| && Meets(rules[j], secondsBefore) ==> rules[j].beforeHours <= rules[k].beforeHours)
      && (forall j :: 0 <= j < k && Meets(rules[j], secondsBefore) ==> rules[j].beforeHours < rules[k].beforeHours)
  {
    if rules == [] {
      k := -1;
    } else {
      var n := |rules| - 1;
      k := RuleWithLongestNotice(rules[..n], secondsBefore);
      var last := rules[n];
      if Meets(last, secondsBefore) && (k == -1 || last.beforeHours > rules[k].beforeHours) {
        k := n;
      }
    }
  }

  /** Percentages are rounded to the nearest unit, halves up. */
  lemma RoundsHalfUp(amount: nat, percent: int)
    ensures amount * percent - 50 < 100 * RoundPercent(amount, percent) <= amount * percent + 50
  {
  }

  // ----- leaving -----

  // The newest order gained exactly one refund; no other order changed.
  predicate Refunds(p: Participation, q: Participation, key: RefundKey, principal: int, fee: int) {
    && |p.orders| > 0 && |q.orders| == |p.orders|
    && var n := |p.orders| - 1;
      && q.orders == p.orders[n := q.orders[n]]
      && q.orders[n] == p.orders[n].(refunds := q.orders[n].refunds)
      && |q.orders[n].refunds| == 1
      && q.orders[n].refunds[0].key == key
      && q.orders[n].refunds[0].principal == principal
      && q.orders[n].refunds[0].fee == fee
  }

  lemma RefundsTheSeat(p: Participation, key: RefundKey, principal: int, fee: int, retained: int, toOrganizer: bool)
    requires ParticipationOk(p) && p.status == Active
    requires key == SelfCancelKey(|p.orders| - 1) || (key.MassKey? && key.order == |p.orders| - 1)
    requires CreateRefund(p, |p.orders| - 1, key, principal, fee, retained, toOrganizer).Ok?
    ensures var q := CreateRefund(p, |p.orders| - 1, key, principal, fee, retained, toOrganizer).value.participation;
      Refunds(p, q, key, principal, fee) && Last(q).refunds[0].retained == retained && Last(q).refunds[0].toOrganizer == toOrganizer
  {
    var n := |p.orders| - 1;
    SeatOrder(p);
    NoRefundNoKey(p, n, key);
    var added := AddRefund(p.orders[n], key, principal, fee, retained, toOrganizer).value;
    AddedRow(p.orders[n], key, principal, fee, retained, toOrganizer, added);
    AddedTerms(p.orders[n], key, principal, fee, retained, toOrganizer);
    hide OrderOk, AddRefund, FindKey, KeysOk;
  }

  lemma AddedTerms(o: PaymentOrder, key: RefundKey, principal: int, fee: int, retained: int, toOrganizer: bool)
    requires AddRefund(o, key, principal, fee, retained, toOrganizer).Ok?
    ensures var r := AddRefund(o, key, principal, fee, retained, toOrganizer).value.refunds[|o.refunds|];
      r.retained == retained && r.toOrganizer == toOrganizer
  {
    hide Total;
  }

  // The seat's order gained the one refund the rule gives; the rest of the principal
  // is the organizer's.
  predicate LeavesByRule(p: Participation, q: Participation, rule: RefundRule)
    requires p.orders != []
  {
    && q.status == Participations.Cancelled
    && Refunds(p, q, SelfCancelKey(|p.orders| - 1), RoundPercent(p.principal, rule.principalPercent), RoundPercent(p.fee, rule.feePercent))
    && var r := q.orders[|p.orders| - 1].refunds[0];
      && r.principal + r.retained == p.principal
      && (r.toOrganizer <==> r.principal < p.principal)
  }

  /** Giving up a seat before the start refunds its order by the rule that applies, and
      leaves the rest of the principal to the organizer. */
  lemma SelfCancellationByRule(p: Participation, rules: seq<RefundRule>, startsAt: Time, now: Time)
    requires ParticipationOk(p) && p.status == Active && SelfCancel(p, rules, startsAt, now).Ok?
    ensures now <= startsAt && !HasUndecidedCase(p)
    ensures p.orders != [] && LeavesByRule(p, SelfCancel(p, rules, startsAt, now).value, MatchRule(rules, startsAt - now))
  {
    SeatOrder(p);
    var n := |p.orders| - 1;
    var rule := MatchRule(rules, startsAt - now);
    var principal := RoundPercent(p.principal, rule.principalPercent);
    var retained := p.principal - principal;
    hide RoundPercent, MatchRule, CreateRefund, ParticipationOk;
    SelfCancelKeepsOk(p, rules, startsAt, now);
    RefundsTheSeat(p, SelfCancelKey(n), principal, RoundPercent(p.fee, rule.feePercent), retained, retained != 0);
    RefundWithinPaid(SelfCancel(p, rules, startsAt, now).value);
  }

  lemma RefundWithinPaid(q: Participation)
    requires ParticipationOk(q) && |Last(q).refunds| == 1
    ensures Last(q).refunds[0].principal <= q.principal
  {
    assert OrderOk(Last(q));
    SingleRefund(Last(q));
    hide OrderOk;
  }

  /** A mass cancellation refunds every seat in full. */
  lemma MassCancellationInFull(p: Participation, kind: MassKind)
    requires ParticipationOk(p) && p.status == Active
    ensures MassCancel(p, kind).Ok?
    ensures var q := MassCancel(p, kind).value;
      && q.status == Participations.Cancelled
      && Refunds(p, q, MassKey(kind, |p.orders| - 1), p.principal, p.fee)
  {
    SeatOrder(p);
    MassCancelKeepsOk(p, kind);
    MassRefundAccepted(p, kind);
    RefundsTheSeat(p, MassKey(kind, |p.orders| - 1), p.principal, p.fee, 0, false);
    assert Last(p).principal == p.principal && Last(p).fee == p.fee;
    hide ParticipationOk, CreateRefund;
  }

  // ----- after-sales -----

  /** A new case asks for what is left of the newest refundable order, or, when staff
      register it, for no more than that; it is never empty. */
  lemma CaseAsksForTheRest(p: Participation, staff: Option<(nat, nat)>)
    requires CreateCase(p, staff).Ok? && !HasOpenCase(p)
    ensures var q := CreateCase(p, staff).value;
      && LatestRefundable(p).Some?
      && var o := p.orders[LatestRefundable(p).value];
        && q.orders == p.orders && |q.cases| == |p.cases| + 1 && q.cases[..|p.cases|] == p.cases
        && var c := q.cases[|p.cases|];
          && c.status == CasePending && c.refund.None? && c.requestedPrincipal + c.requestedFee > 0
          && ReservedPrincipal(o) + c.requestedPrincipal <= o.principal && ReservedFee(o) + c.requestedFee <= o.fee
          && (staff.None? ==> ReservedPrincipal(o) + c.requestedPrincipal == o.principal && ReservedFee(o) + c.requestedFee == o.fee)
          && (staff.Some? ==>
                && c.requestedPrincipal == staff.value.0 && c.requestedFee == staff.value.1
                && forall r :: r in o.refunds ==> r.status == RefundSucceeded)
  {
    hide Newest, HasOpenCase;
    if staff.Some? {
      NothingUnfinished(p.orders[LatestRefundable(p).value].refunds);
    }
    hide Total;
  }

  lemma {:induction false} NothingUnfinished(s: seq<Refund>)
    ensures Total(s, UnfinishedOf) == 0 <==> forall r :: r in s ==> r.status == RefundSucceeded
  {
    if s != [] {
      NothingUnfinished(s[..|s| - 1]);
      UnfinishedNonNegative(s[..|s| - 1]);
    }
  }

  // One refund was added to order o; no other order changed.
  predicate RefundAdded(p: Participation, q: Participation, o: nat, key: RefundKey, principal: int, fee: int) {
    && o < |p.orders| == |q.orders|
    && q.orders == p.orders[o := q.orders[o]]
    && |q.orders[o].refunds| == |p.orders[o].refunds| + 1
    && q.orders[o] == p.orders[o].(refunds := p.orders[o].refunds + [q.orders[o].refunds[|p.orders[o].refunds|]])
    && var r := q.orders[o].refunds[|p.orders[o].refunds|];
      r.key == key && r.principal == principal && r.fee == fee && r.status == RefundPending
  }

  /** An approval with authority adds one refund, of the approved amounts and no more
      than was asked for, to the newest refundable order; it settles the case with
      that refund and gives up the seat. Without authority it only passes the case on. */
  lemma ApprovalRefundsOnce(p: Participation, c: nat, principalGiven: Option<int>, feeGiven: Option<int>, authorised: bool)
    requires ParticipationOk(p) && c < |p.cases| && ApproveCase(p, c, principalGiven, feeGiven, authorised).Ok?
    ensures var q := ApproveCase(p, c, principalGiven, feeGiven, authorised).value;
      && |q.cases| == |p.cases|
      && if authorised then
           && LatestRefundable(p).Some?
           && q.cases[c].status == CaseApproved && q.status != Active
           && 0 <= q.cases[c].approvedPrincipal <= p.cases[c].requestedPrincipal
           && 0 <= q.cases[c].approvedFee <= p.cases[c].requestedFee
           && q.cases[c].approvedPrincipal == (if principalGiven.Some? then principalGiven.value else p.cases[c].requestedPrincipal)
           && q.cases[c].approvedFee == (if feeGiven.Some? then feeGiven.value else p.cases[c].requestedFee)
           && q.cases[c].refund == Some(RefundRef(LatestRefundable(p).value, |p.orders[LatestRefundable(p).value].refunds|))
           && RefundAdded(p, q, LatestRefundable(p).value, AfterSalesKey(c), q.cases[c].approvedPrincipal, q.cases[c].approvedFee)
         else q == p.(cases := p.cases[c := p.cases[c].(requiresSupervisor := true)])
  {
    UndecidedCase(p, c, principalGiven, feeGiven, authorised);
    UndecidedCaseHasNoRefund(p, c);
    if authorised {
      var x := p.cases[c];
      var o := LatestRefundable(p).value;
      var principal := if principalGiven.Some? then principalGiven.value else x.requestedPrincipal;
      var fee := if feeGiven.Some? then feeGiven.value else x.requestedFee;
      var added := AddRefund(p.orders[o], AfterSalesKey(c), principal, fee, 0, false).value;
      AddedRow(p.orders[o], AfterSalesKey(c), principal, fee, 0, false, added);
      hide ParticipationOk, AddRefund, FindKey, Newest, Total;
    }
  }

  // What stands against the newest refundable order besides what is asked now.
  predicate Refundable(o: PaymentOrder, principal: int, fee: int) {
    && principal >= 0 && fee >= 0 && principal + fee > 0
    && ReservedPrincipal(o) + principal <= o.principal && ReservedFee(o) + fee <= o.fee
    && (forall r :: r in o.refunds ==> r.status == RefundSucceeded)
  }

  /** A case can be registered exactly if none is open and something is left to give back;
      by staff only for amounts that are left, on an order with nothing unfinished. A user
      who has an open case finds it. */
  lemma CaseAcceptedIff(p: Participation, staff: Option<(nat, nat)>)
    requires ParticipationOk(p)
    ensures CreateCase(p, staff).Ok? <==>
      if HasOpenCase(p) then staff.None?
      else
        && LatestRefundable(p).Some?
        && var o := p.orders[LatestRefundable(p).value];
          if staff.Some? then Refundable(o, staff.value.0, staff.value.1)
          else ReservedPrincipal(o) + ReservedFee(o) < o.principal + o.fee
    ensures HasOpenCase(p) && CreateCase(p, staff).Ok? ==> CreateCase(p, staff) == Ok(p)
  {
    hide HasOpenCase, Newest, KeysOk, SeatOk;
    if LatestRefundable(p).Some? {
      var o := p.orders[LatestRefundable(p).value];
      assert ReservationOk(o) by { assert OrderOk(o); }
      NothingUnfinished(o.refunds);
    }
    hide OrderOk, Total;
  }

  /** An approval is accepted exactly if the case is undecided and the amounts are asked
      for, not empty and still to be given back on the newest refundable order. */
  lemma ApprovalAcceptedIff(p: Participation, c: nat, principalGiven: Option<int>, feeGiven: Option<int>, authorised: bool)
    requires ParticipationOk(p) && c < |p.cases|
    ensures var x := p.cases[c];
      var principal := if principalGiven.Some? then principalGiven.value else x.requestedPrincipal;
      var fee := if feeGiven.Some? then feeGiven.value else x.requestedFee;
      ApproveCase(p, c, principalGiven, feeGiven, authorised).Ok? <==>
        && (x.status == CasePending || x.status == CaseProcessing)
        && principal <= x.requestedPrincipal && fee <= x.requestedFee
        && LatestRefundable(p).Some?
        && var o := p.orders[LatestRefundable(p).value];
          && Refundable(o, principal, fee)
          && (authorised && o.IsReleased() ==> ReservedAmount(o) + principal + fee <= o.allocation.value.external)
  {
    hide ParticipationOk, FindKey, Newest, ApproveCase, AddRefund, Refundable, CreateRefund;
    var x := p.cases[c];
    var principal := if principalGiven.Some? then principalGiven.value else x.requestedPrincipal;
    var fee := if feeGiven.Some? then feeGiven.value else x.requestedFee;
    if LatestRefundable(p).Some? {
      var o := LatestRefundable(p).value;
      if x.status == CasePending || x.status == CaseProcessing {
        CaseRefundAccepted(p, c, o, principal, fee);
      }
      RefundableMeans(p.orders[o], principal, fee);
    }
    ApprovalChecks(p, c, principalGiven, feeGiven, authorised);
  }

  lemma ApprovalChecks(p: Participation, c: nat, principalGiven: Option<int>, feeGiven: Option<int>, authorised: bool)
    requires c < |p.cases|
    ensures var x := p.cases[c];
      var principal := if principalGiven.Some? then principalGiven.value else x.requestedPrincipal;
      var fee := if feeGiven.Some? then feeGiven.value else x.requestedFee;
      ApproveCase(p, c, principalGiven, feeGiven, authorised).Ok? <==>
        && (x.status == CasePending || x.status == CaseProcessing)
        && principal <= x.requestedPrincipal && fee <= x.requestedFee
        && LatestRefundable(p).Some?
        && var o := LatestRefundable(p).value;
          && Fits(p.orders[o], principal, fee)
          && (authorised ==> CreateRefund(p, o, AfterSalesKey(c), principal, fee, 0, false).Ok?)
  {
    hide Newest, CreateRefund, ReservedPrincipal, ReservedFee, Total;
  }

  // The amounts pass the checks that the service makes one by one.
  predicate Fits(o: PaymentOrder, principal: int, fee: int) {
    && principal >= 0 && fee >= 0 && principal + fee > 0
    && principal <= o.principal - ReservedPrincipal(o) && fee <= o.fee - ReservedFee(o)
    && Total(o.refunds, UnfinishedOf) == 0
  }

  lemma RefundableMeans(o: PaymentOrder, principal: int, fee: int)
    ensures Fits(o, principal, fee) <==> Refundable(o, principal, fee)
  {
    NothingUnfinished(o.refunds);
    hide Total, ReservedPrincipal, ReservedFee;
  }

  lemma CaseRefundAccepted(p: Participation, c: nat, o: nat, principal: int, fee: int)
    requires ParticipationOk(p) && c < |p.cases| && (p.cases[c].status == CasePending || p.cases[c].status == CaseProcessing) && o < |p.orders|
    ensures Refundable(p.orders[o], principal, fee) ==>
      (CreateRefund(p, o, AfterSalesKey(c), principal, fee, 0, false).Ok? <==>
        (p.orders[o].IsReleased() ==> ReservedAmount(p.orders[o]) + principal + fee <= p.orders[o].allocation.value.external))
  {
    UndecidedCaseHasNoRefund(p, c);
    RefundAcceptedIff(p.orders[o], AfterSalesKey(c), principal, fee, 0, false);
    hide ParticipationOk, FindKey, AddRefund, Total, ReservedPrincipal, ReservedFee, ReservedAmount;
  }

  lemma UndecidedCase(p: Participation, c: nat, principalGiven: Option<int>, feeGiven: Option<int>, authorised: bool)
    requires c < |p.cases| && ApproveCase(p, c, principalGiven, feeGiven, authorised).Ok?
    ensures p.cases[c].status in {CasePending, CaseProcessing}
  {
    hide Total, Newest, CreateRefund;
  }
}
