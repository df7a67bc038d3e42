/** What one call can do to the course of the activity and to its settlement. */
module ActivityHistory {
  import opened Wrappers
  import opened Totals
  import opened WalletAllocations
  import opened PaymentOrders
  import opened Participations
  import opened ParticipationInvariants
  import opened Settlements
  import opened Activities
  import opened ActivityInvariants
  import opened ActivitySteps
  import opened ActivityMoves

  // ----- the course of the activity -----

  // The only ways an activity moves on; everything else is an end.
  predicate Follows(s: ActivityStatus, s': ActivityStatus) {
    match s
    case UnderReview => s' in {Rejected, Recruiting}
    case Recruiting => s' in {Formed, CalledOff, NotFormed}
    case Formed => s' in {Recruiting, InProgress, CalledOff}
    case InProgress => s' == Completed
    case _ => false
  }

  // An activity forms only with enough participants on it, falls back to recruiting only
  // with too few of them before its formation deadline, and ends early only
  // when it is cancelled; its publishing payment is refunded only when it ends early.
  predicate CourseOk(b: Book, b': Book, cancels: bool, now: Time) {
    && (b'.status == b.status || Follows(b.status, b'.status))
    && (b'.status in {CalledOff, NotFormed} && b.status != b'.status ==> cancels)
    && (b'.publish != b.publish ==> b.status != b'.status && b'.status in {Rejected, CalledOff, NotFormed})
    && (b'.status == Formed && b.status != Formed ==> ActiveCount(b') >= b'.terms.minParticipants)
    && (b'.status == Recruiting && b.status == Formed ==> ActiveCount(b') < b'.terms.minParticipants && now < b'.terms.formationDeadline)
  }

  predicate IsCancellation(c: Call) {
    c.CancelByOrganizerCall? || c.CancelByAdminCall? || c.FailUnformedCall?
  }

  lemma SyncCourse(b: Book, now: Time)
    ensures CourseOk(b, Sync(b, now), false, now)
    ensures Sync(b, now).settlement == b.settlement
  {
    hide Total;
  }

  lemma SameStatusCourse(b: Book, b': Book, now: Time)
    requires b'.status == b.status && b'.publish == b.publish
    ensures CourseOk(b, b', false, now)
  {
  }

  lemma SeatCallCourse(b: Book, t: Time, c: Call, now: Time)
    requires BookOk(b, t) && IsSeatCall(c) && Try(b, c, now).Ok?
    ensures CourseOk(b, Try(b, c, now).value, IsCancellation(c), now) && Try(b, c, now).value.settlement == b.settlement
  {
    hide BookOk, Total, ApplySuccess, SelfCancel, Compensate, OpenSession, FindUser, ExpireRows, RefundPublish,
      ExpireOne, HasRefundable, HasLiveOrder, OccupiedCount, SignUpAgain, NewParticipation, ActiveCount;
    match c
    case OpenPaymentCall(user, available, externalOnly) => OpenPaymentCourse(b, user, available, externalOnly, now);
    case ChannelSuccessCall(i, o, paidAt) => SuccessCourse(b, i, o, paidAt, now);
    case CancelOwnCall(user) => CancelOwnCourse(b, user, now);
    case CancelByOrganizerCall => CancellationCourse(b, t, c, now);
    case CancelByAdminCall => CancellationCourse(b, t, c, now);
    case FailUnformedCall => CancellationCourse(b, t, c, now);
    case _ => hide Sync;
  }

  lemma CancellationCourse(b: Book, t: Time, c: Call, now: Time)
    requires BookOk(b, t) && IsCancellation(c) && Try(b, c, now).Ok?
    ensures CourseOk(b, Try(b, c, now).value, true, now) && Try(b, c, now).value.settlement == b.settlement
  {
    assert b.status == Recruiting ==> ActiveCount(b) < b.terms.minParticipants;
    hide BookOk, ActiveCount, CancelRows, RefundPublish, RoundPercent;
  }

  lemma SuccessCourse(b: Book, i: nat, o: nat, paidAt: Time, now: Time)
    requires RecordSuccess(b, i, o, paidAt, now).Ok?
    ensures CourseOk(b, RecordSuccess(b, i, o, paidAt, now).value, false, now) && RecordSuccess(b, i, o, paidAt, now).value.settlement == b.settlement
  {
    hide Sync, ApplySuccess;
    SyncCourse(Put(b, i, ApplySuccess(b.participations[i], o, paidAt).value.participation), now);
  }

  lemma OpenPaymentCourse(b: Book, user: nat, available: nat, externalOnly: bool, now: Time)
    requires OpenPayment(b, user, available, externalOnly, now).Ok?
    ensures CourseOk(b, OpenPayment(b, user, available, externalOnly, now).value, false, now)
    ensures OpenPayment(b, user, available, externalOnly, now).value.settlement == b.settlement
  {
    hide OpenSession, RecordSuccess, FindUser;
    var i := FindUser(b.participations, user).value;
    var p := b.participations[i];
    var order := OpenSession(p.orders[|p.orders| - 1], available, externalOnly, now).value;
    var b' := Put(b, i, p.(orders := p.orders[|p.orders| - 1 := order]));
    if order.allocation.Some? && order.allocation.value.external == 0 {
      SuccessCourse(b', i, |p.orders| - 1, now, now);
    }
  }

  lemma CancelOwnCourse(b: Book, user: nat, now: Time)
    requires CancelOwn(b, user, now).Ok?
    ensures CourseOk(b, CancelOwn(b, user, now).value, false, now) && CancelOwn(b, user, now).value.settlement == b.settlement
  {
    hide Sync, SelfCancel, FindUser;
    var i := FindUser(b.participations, user).value;
    SyncCourse(Put(b, i, SelfCancel(b.participations[i], b.terms.rules, b.terms.startsAt, now).value), now);
  }

  lemma MoneyCallCourse(b: Book, c: Call, now: Time)
    requires !IsSeatCall(c) && Try(b, c, now).Ok?
    ensures CourseOk(b, Try(b, c, now).value, false, now)
  {
    hide Calculate, AnyOpenCase, AnyUndecidedCase, Total, CreateCase, HasOpenCase, StartReview, Escalate, RejectCase, ApproveCase, Advance,
      FindUser, ReleaseAfterSales, FreezeForAfterSales, Sync, CourseOk, AdvanceSettlement, RefundStatusAt;
    var b' := Try(b, c, now).value;
    match c
    case RegisterCaseCall(user, staff, periods) => RegisterCourse(b, user, staff, periods, now);
    case DeclineCaseCall(i, k) =>
      ReleaseFrame(Put(b, i, RejectCase(b.participations[i], k).value), now);
      SameStatusCourse(b, b', now);
    case ApproveCall(i, k, principal, fee, authorised) => ApproveCourse(b, i, k, principal, fee, authorised, now);
    case RefundCall(i, ref, step, at) =>
      ReleaseFrame(Put(b, i, Participations.Advance(b.participations[i], ref, step).value), if step == TakeUp then now else at);
      SameStatusCourse(b, b', now);
    case AdvanceSettlementCall => AdvanceFrame(b, now); SameStatusCourse(b, b', now);
    case ReleaseByAdminCall =>
      AdvanceFrame(b.(settlement := Some(Thawed(b.settlement.value, now))), now);
      SameStatusCourse(b, b', now);
    case SettleByAdminCall => AdvanceFrame(b, now); SameStatusCourse(b, b', now);
    case _ => SameStatusCourse(b, b', now);
  }

  lemma RegisterCourse(b: Book, user: nat, staff: Option<(nat, nat)>, periods: Periods, now: Time)
    requires RegisterCase(b, user, staff, periods).Ok?
    ensures CourseOk(b, RegisterCase(b, user, staff, periods).value, false, now)
  {
    hide CreateCase, HasOpenCase, FindUser, FreezeForAfterSales, CourseOk;
    var i := FindUser(b.participations, user).value;
    if !HasOpenCase(b.participations[i]) {
      FreezeFrame(Put(b, i, CreateCase(b.participations[i], staff).value), periods);
    }
    SameStatusCourse(b, RegisterCase(b, user, staff, periods).value, now);
  }

  lemma ApproveCourse(b: Book, i: nat, c: nat, principal: Option<int>, fee: Option<int>, authorised: bool, now: Time)
    requires Approve(b, i, c, principal, fee, authorised, now).Ok?
    ensures CourseOk(b, Approve(b, i, c, principal, fee, authorised, now).value, false, now)
  {
    hide ApproveCase, Sync, ReleaseAfterSales;
    var b1 := Put(b, i, ApproveCase(b.participations[i], c, principal, fee, authorised).value);
    SyncCourse(b1, now);
    ReleaseFrame(b1, now);
    ReleaseFrame(Sync(b1, now), now);
  }

  /** Every call follows the course, and only a full enough activity is formed: the
      branch that would rescue an unformed one at its deadline is never taken. */
  lemma NextCourse(b: Book, t: Time, c: Call, now: Time)
    requires BookOk(b, t)
    ensures CourseOk(b, Next(b, c, now), IsCancellation(c), now)
  {
    hide BookOk, Try, IsSeatCall;
    SameStatusCourse(b, b, now);
    if Try(b, c, now).Ok? {
      if IsSeatCall(c) {
        SeatCallCourse(b, t, c, now);
      } else {
        MoneyCallCourse(b, c, now);
      }
    }
  }

  // ----- the settlement -----

  // How a settlement comes to be paid: not before its date, with no dispute, no
  // open after-sales case, and for the amounts due at that moment.
  predicate SettledNow(b: Book, c: Call, b': Book, now: Time) {
    && IsSettled(b')
    && !AnyOpenCase(b')
    && b.settlement.Some?
    && (b.settlement.value.source == AdminDispute ==> c.ReleaseByAdminCall?)
    && b'.settlement.value.source == NoDispute
    && b'.settlement.value.settledAt == Some(now)
    && b'.settlement.value.freezeUntil == b.settlement.value.freezeUntil <= now
    && b'.settlement.value.amounts == Calculate(b'.publish, b'.participations)
  }

  // A settlement is never dropped and its dates never move; a new one belongs to a
  // completed activity and is frozen exactly if a case is open.
  predicate DatesKept(b: Book, b': Book) {
    && (b.settlement.Some? ==>
          && b'.settlement.Some?
          && b'.settlement.value.confirmationDeadline == b.settlement.value.confirmationDeadline
          && b'.settlement.value.freezeUntil == b.settlement.value.freezeUntil)
    && (b.settlement.None? && b'.settlement.Some? ==>
          && b'.status == Completed
          && b.terms.endsAt <= b'.settlement.value.confirmationDeadline
          && (b'.settlement.value.source == AfterSalesDispute <==> AnyOpenCase(b')))
  }

  // A settlement is confirmed one period after the end of the activity and frozen one
  // more after that, by the periods in force when it is made.
  predicate DatedFrom(b: Book, s: Settlement, periods: Periods) {
    && s.confirmationDeadline == b.terms.endsAt + periods.confirmation
    && s.freezeUntil == b.terms.endsAt + periods.confirmation + periods.freeze
  }

  predicate MakesSettlement(c: Call) { c.EnsureSettlementCall? || c.RegisterCaseCall? }

  // Nothing happens to the settlement, or it is made, or it stays unpaid, or it is paid
  // as it should be.
  predicate SettlementStep(b: Book, c: Call, b': Book, now: Time) {
    && DatesKept(b, b')
    && (b.settlement.None? && b'.settlement.Some? ==> MakesSettlement(c) && DatedFrom(b, b'.settlement.value, c.periods))
    && (IsSettled(b) ==> b'.settlement == b.settlement)
    && (IsSettled(b') && !IsSettled(b) ==> SettledNow(b, c, b', now))
  }

  lemma AdvanceStep(b: Book, now: Time)
    requires AdvanceSettlement(b, now).Ok? && SettlementOk(b)
    ensures var b' := AdvanceSettlement(b, now).value;
      && b.settlement.Some? && DatesKept(b, b')
      && (IsSettled(b) ==> b' == b)
      && (IsSettled(b') && !IsSettled(b) ==>
            && !AnyOpenCase(b') && b.settlement.value.source != AdminDispute && b'.settlement.value.source == NoDispute
            && b'.settlement.value.settledAt == Some(now)
            && b'.settlement.value.freezeUntil == b.settlement.value.freezeUntil <= now
            && b'.settlement.value.amounts == Calculate(b'.publish, b'.participations))
  {
    hide Calculate, HasOpenCase, Margin;
    var b' := AdvanceSettlement(b, now).value;
    assert b'.participations == b.participations && b'.publish == b.publish;
  }

  lemma ReleaseStep(b: Book, now: Time)
    ensures IsSettled(b) ==> ReleaseAfterSales(b, now).settlement == b.settlement
    ensures IsSettled(ReleaseAfterSales(b, now)) <==> IsSettled(b)
    ensures DatesKept(b, ReleaseAfterSales(b, now)) && (b.settlement.None? ==> ReleaseAfterSales(b, now) == b)
  {
    hide Calculate, AnyOpenCase;
  }

  lemma FreezeStep(b: Book, periods: Periods)
    requires FreezeForAfterSales(b, periods).Ok?
    ensures !IsSettled(b) && !IsSettled(FreezeForAfterSales(b, periods).value)
    ensures b.settlement.Some? ==> DatesKept(b, FreezeForAfterSales(b, periods).value)
    ensures AnyOpenCase(b) ==> DatesKept(b, FreezeForAfterSales(b, periods).value)
    ensures var s := FreezeForAfterSales(b, periods).value.settlement;
      && (b.settlement.None? && s.Some? ==> DatedFrom(b, s.value, periods))
      && (b.status == Completed ==> s.Some?)
  {
    SameCases(b, FreezeForAfterSales(b, periods).value);
    hide Calculate, AnyOpenCase;
  }

  lemma SameCases(b: Book, b': Book)
    ensures b'.participations == b.participations ==> AnyOpenCase(b') == AnyOpenCase(b)
  {
    hide HasOpenCase;
  }

  lemma NewCaseIsOpen(b: Book, i: nat, staff: Option<(nat, nat)>)
    requires i < |b.participations| && !HasOpenCase(b.participations[i]) && CreateCase(b.participations[i], staff).Ok?
    ensures AnyOpenCase(Put(b, i, CreateCase(b.participations[i], staff).value))
  {
    var q := CreateCase(b.participations[i], staff).value;
    hide Total, Newest;
    assert CaseIsOpen(q, q.cases[|q.cases| - 1]);
    assert HasOpenCase(q);
    assert Put(b, i, q).participations[i] == q;
    assert q in Put(b, i, q).participations;
  }

  lemma AdminStep(b: Book, c: Call, now: Time)
    requires SettlementOk(b) && Try(b, c, now).Ok?
    requires c.EnsureSettlementCall? || c.AdvanceSettlementCall? || c.FreezeByAdminCall? || c.ReleaseByAdminCall? || c.SettleByAdminCall?
    ensures SettlementStep(b, c, Try(b, c, now).value, now)
  {
    hide Calculate, AnyOpenCase, AnyUndecidedCase, Margin, AdvanceSettlement;
    match c
    case AdvanceSettlementCall => AdvanceStep(b, now);
    case SettleByAdminCall => AdvanceStep(b, now);
    case ReleaseByAdminCall =>
      var thawed := b.(settlement := Some(Thawed(b.settlement.value, now)));
      assert SettlementOk(thawed) by { assert Margin(thawed) == Margin(b) by { MarginSame(b, thawed); } }
      AdvanceStep(thawed, now);
    case EnsureSettlementCall(_) => SameCases(b, Try(b, c, now).value);
    case _ =>
  }

  lemma MarginSame(b: Book, b': Book)
    requires b'.participations == b.participations && b'.publish == b.publish
    ensures Margin(b') == Margin(b)
  {
  }

  lemma CaseStep(b: Book, c: Call, now: Time)
    requires Try(b, c, now).Ok?
    requires c.RegisterCaseCall? || c.BeginReviewCall? || c.EscalateCaseCall? || c.DeclineCaseCall? || c.ApproveCall? || c.RefundCall?
    ensures SettlementStep(b, c, Try(b, c, now).value, now)
  {
    hide CreateCase, HasOpenCase, StartReview, Escalate, RejectCase, ApproveCase, Advance, FindUser, ReleaseAfterSales,
      FreezeForAfterSales, Sync, RefundStatusAt, SettledNow, Calculate, AnyOpenCase;
    match c
    case RegisterCaseCall(user, staff, periods) =>
      var i := FindUser(b.participations, user).value;
      if !HasOpenCase(b.participations[i]) {
        NewCaseIsOpen(b, i, staff);
        FreezeStep(Put(b, i, CreateCase(b.participations[i], staff).value), periods);
        SameCases(Put(b, i, CreateCase(b.participations[i], staff).value), Try(b, c, now).value);
      }
    case DeclineCaseCall(i, k) =>
      ReleaseStep(Put(b, i, RejectCase(b.participations[i], k).value), now);
    case ApproveCall(i, k, principal, fee, authorised) =>
      var b1 := Put(b, i, ApproveCase(b.participations[i], k, principal, fee, authorised).value);
      SyncCourse(b1, now);
      ReleaseStep(b1, now);
      ReleaseStep(Sync(b1, now), now);
    case RefundCall(i, ref, step, at) =>
      ReleaseStep(Put(b, i, Participations.Advance(b.participations[i], ref, step).value), if step == TakeUp then now else at);
    case _ =>
  }

  /** Every call leaves a paid settlement alone, and pays one only when it may be paid. */
  lemma NextSettles(b: Book, t: Time, c: Call, now: Time)
    requires BookOk(b, t)
    ensures SettlementStep(b, c, Next(b, c, now), now)
  {
    assert SettlementOk(b);
    hide BookOk, Try, SettledNow, SettlementOk;
    if Try(b, c, now).Ok? {
      if IsSeatCall(c) {
        SeatCallCourse(b, t, c, now);
      } else if c.EnsureSettlementCall? || c.AdvanceSettlementCall? || c.FreezeByAdminCall? || c.ReleaseByAdminCall? || c.SettleByAdminCall? {
        AdminStep(b, c, now);
      } else {
        CaseStep(b, c, now);
      }
    }
  }

  /** A case newly registered on a completed activity freezes its settlement. */
  lemma RegisterFreezes(b: Book, user: nat, staff: Option<(nat, nat)>, periods: Periods)
    requires SettlementOk(b) && RegisterCase(b, user, staff, periods).Ok? && b.status == Completed
    ensures var b' := RegisterCase(b, user, staff, periods).value;
      b'.participations != b.participations ==>
        AnyOpenCase(b') && b'.settlement.Some? && b'.settlement.value.status == DisputeFrozen
  {
    hide FindUser, HasOpenCase, CreateCase, AnyOpenCase, Calculate, Margin;
    var i := FindUser(b.participations, user).value;
    if !HasOpenCase(b.participations[i]) {
      NewCaseIsOpen(b, i, staff);
      SameCases(Put(b, i, CreateCase(b.participations[i], staff).value), RegisterCase(b, user, staff, periods).value);
    }
  }

  /** An after-sales dispute is lifted exactly when no case is open any more. */
  lemma LiftedWhenClosed(b: Book, now: Time)
    requires b.settlement.Some? && b.settlement.value.status == DisputeFrozen && b.settlement.value.source == AfterSalesDispute
    ensures var s := ReleaseAfterSales(b, now).settlement;
      && s.Some?
      && (s.value.source == NoDispute <==> !AnyOpenCase(b))
      && (!AnyOpenCase(b) ==>
            && s.value.amounts == Calculate(b.publish, b.participations)
            && s.value.status == (if now < s.value.confirmationDeadline then Confirming else RiskFrozen))
  {
    hide AnyOpenCase, Calculate;
  }

  /** A settlement that the back office does not hold is paid by the next advance exactly
      if its date has come and no case is open. */
  lemma PaidWhenDue(b: Book, now: Time)
    requires SettlementOk(b) && b.settlement.Some? && b.settlement.value.source != AdminDispute
    ensures AdvanceSettlement(b, now).Ok?
    ensures IsSettled(AdvanceSettlement(b, now).value) <==>
      IsSettled(b) || (!AnyOpenCase(b) && b.settlement.value.freezeUntil <= now)
  {
    hide Calculate, AnyOpenCase, Margin;
  }
}
