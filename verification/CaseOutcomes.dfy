/** What the calls about after-sales cases and the settlement do, said from the rows and
    the dates: who may register a case, what becomes of it, and where a settlement stands. */
module CaseOutcomes {
  import opened Wrappers
  import opened Totals
  import opened WalletAllocations
  import opened PaymentOrders
  import opened OrderInvariants
  import opened OrderMoves
  import opened Participations
  import opened ParticipationInvariants
  import opened ParticipationOutcomes
  import opened Settlements
  import opened Activities
  import opened ActivityInvariants
  import opened ActivitySteps
  import opened ActivityMoves
  import opened ActivityHistory
  import opened ActivityRuns
  import opened PaymentRuns
  import opened SeatOutcomes

  // ----- when nothing is open -----

  predicate RefundDone(p: Participation, ref: Option<RefundRef>) {
    ref.Some? && RefExists(p, ref.value) && p.orders[ref.value.order].refunds[ref.value.refund].status == RefundSucceeded
  }

  // Every case is over: turned down, or approved and its refund carried out.
  predicate AllOver(p: Participation) {
    forall c :: c in p.cases ==> c.status == CaseRejected || (c.status == CaseApproved && RefundDone(p, c.refund))
  }

  predicate Clear(b: Book) {
    forall p :: p in b.participations ==> AllOver(p)
  }

  predicate Undecided(x: AfterSalesCase) { x.status == CasePending || x.status == CaseProcessing }

  lemma OverMeansNoneOpen(p: Participation)
    ensures AllOver(p) <==> !HasOpenCase(p)
  {
    forall c | c in p.cases
      ensures CaseIsOpen(p, c) <==> !(c.status == CaseRejected || (c.status == CaseApproved && RefundDone(p, c.refund)))
    {
      OneOver(p, c);
    }
    hide CaseIsOpen, RefundDone;
  }

  lemma OneOver(p: Participation, c: AfterSalesCase)
    ensures CaseIsOpen(p, c) <==> !(c.status == CaseRejected || (c.status == CaseApproved && RefundDone(p, c.refund)))
  {
    match c.status
    case CasePending =>
    case CaseProcessing =>
    case CaseApproved =>
    case CaseRejected =>
  }

  lemma ClearMeansNoneOpen(b: Book)
    ensures Clear(b) <==> !AnyOpenCase(b)
  {
    forall p | p in b.participations
      ensures AllOver(p) <==> !HasOpenCase(p)
    {
      OverMeansNoneOpen(p);
    }
    hide AllOver, HasOpenCase;
  }

  predicate NoneUndecided(b: Book) {
    forall p :: p in b.participations ==> AllDecided(p)
  }

  lemma NoneUndecidedMeans(b: Book)
    ensures NoneUndecided(b) <==> !AnyUndecidedCase(b)
  {
    forall p | p in b.participations
      ensures AllDecided(p) <==> !HasUndecidedCase(p)
    {
      DecidedOrNot(p);
    }
    hide AllDecided, HasUndecidedCase;
  }

  // ----- where a settlement stands -----

  // The stage the dates give an undisputed settlement.
  function StageAt(s: Settlement, now: Time): SettlementStatus {
    if s.freezeUntil <= now then Settled else if s.confirmationDeadline <= now then RiskFrozen else Confirming
  }

  // Undisputed, with the amounts due now and the stage the dates give; a risk freeze
  // once entered is not left before its end.
  predicate StandsByTheDates(b: Book, s: Settlement, s': Settlement, now: Time) {
    && s'.source == NoDispute && s'.amounts == Calculate(b.publish, b.participations)
    && s'.confirmationDeadline == s.confirmationDeadline && s'.freezeUntil == s.freezeUntil
    && s'.status == (if s.status == RiskFrozen && now < s.freezeUntil then RiskFrozen else StageAt(s, now))
    && s'.riskFrozenAt == (if s'.status == Confirming then None else Some(s.confirmationDeadline))
    && (s'.status == Settled ==> s'.settledAt == Some(now))
  }

  predicate FrozenForCases(s: Settlement, s': Settlement) {
    s' == s.(status := DisputeFrozen, source := AfterSalesDispute)
  }

  /** Where advancing leaves a settlement: a paid one and one the back office holds stay;
      with a case open it is frozen; otherwise it stands where its dates put it. */
  lemma AdvanceOutcome(b: Book, now: Time)
    requires SettlementOk(b) && b.settlement.Some?
    ensures AdvanceSettlement(b, now).Ok?
    ensures var s, b' := b.settlement.value, AdvanceSettlement(b, now).value;
      && b'.settlement.Some? && b' == b.(settlement := b'.settlement)
      && if s.status == Settled || s.source == AdminDispute then b' == b
         else if !Clear(b) then FrozenForCases(s, b'.settlement.value)
         else StandsByTheDates(b, s, b'.settlement.value, now)
  {
    ClearMeansNoneOpen(b);
    hide Clear, AnyOpenCase, Calculate, Margin;
  }

  /** The back office lifts its own dispute, and no other, as soon as every case is
      decided; the settlement then stands where advancing puts it. */
  lemma ReleaseOutcome(b: Book, t: Time, now: Time)
    requires BookOk(b, t)
    ensures ReleaseByAdmin(b, now).Ok? <==> b.settlement.Some? && b.settlement.value.source == AdminDispute && NoneUndecided(b)
    ensures ReleaseByAdmin(b, now).Ok? ==>
      var s, b' := b.settlement.value, ReleaseByAdmin(b, now).value;
      && b'.settlement.Some? && b' == b.(settlement := b'.settlement)
      && var s' := b'.settlement.value;
        && s'.confirmationDeadline == s.confirmationDeadline && s'.freezeUntil == s.freezeUntil
        && if Clear(b) then StandsByTheDates(b, s, s', now) else s'.status == DisputeFrozen && s'.source == AfterSalesDispute
  {
    NoneUndecidedMeans(b);
    assert SettlementOk(b) && (b.settlement.Some? ==> b.status == ActivityStatus.Completed);
    hide BookOk, NoneUndecided, AnyUndecidedCase, AdvanceSettlement, StandsByTheDates;
    if b.settlement.Some? && b.settlement.value.source == AdminDispute {
      var thawed := b.(settlement := Some(Thawed(b.settlement.value, now)));
      ThawedOk(b, now);
      SameClear(b, thawed);
      AdvanceOutcome(thawed, now);
      ThawedStands(b, now, AdvanceSettlement(thawed, now).value.settlement.value);
    }
  }

  lemma ThawedOk(b: Book, now: Time)
    requires SettlementOk(b) && b.settlement.Some? && b.settlement.value.source == AdminDispute
    ensures SettlementOk(b.(settlement := Some(Thawed(b.settlement.value, now))))
  {
    hide Margin;
  }

  lemma SameClear(b: Book, b': Book)
    requires b'.participations == b.participations
    ensures Clear(b') <==> Clear(b)
  {
    hide AllOver;
  }

  lemma ThawedStands(b: Book, now: Time, s': Settlement)
    requires b.settlement.Some? && b.settlement.value.status == DisputeFrozen
    requires b.settlement.value.confirmationDeadline <= b.settlement.value.freezeUntil
    ensures var s := b.settlement.value;
      && Thawed(s, now).confirmationDeadline == s.confirmationDeadline && Thawed(s, now).freezeUntil == s.freezeUntil
      && Thawed(s, now).status != Settled && Thawed(s, now).source == NoDispute
      && (StandsByTheDates(b.(settlement := Some(Thawed(s, now))), Thawed(s, now), s', now) ==> StandsByTheDates(b, s, s', now))
  {
    hide Calculate;
  }

  /** The back office can hold every settlement that is not paid, and then nothing but its
      own release moves it: advancing, closing the last case and settling leave it held. */
  lemma HoldOutcome(b: Book, now: Time)
    requires SettlementOk(b)
    ensures FreezeByAdmin(b).Ok? <==> b.settlement.Some? && !IsSettled(b)
    ensures FreezeByAdmin(b).Ok? ==>
      var b' := FreezeByAdmin(b).value;
      && b'.settlement.Some? && b' == b.(settlement := b'.settlement)
      && b'.settlement.value == b.settlement.value.(status := DisputeFrozen, source := AdminDispute)
      && AdvanceSettlement(b', now) == Ok(b') && ReleaseAfterSales(b', now) == b' && SettleByAdmin(b', now).Refused?
  {
    hide Calculate, AnyOpenCase, Margin;
  }

  /** Settling by hand is advancing, of a settlement the back office does not hold. */
  lemma SettleOutcome(b: Book, now: Time)
    requires SettlementOk(b)
    ensures SettleByAdmin(b, now).Ok? <==> b.settlement.Some? && b.settlement.value.source != AdminDispute
    ensures SettleByAdmin(b, now).Ok? ==> SettleByAdmin(b, now) == AdvanceSettlement(b, now)
  {
    if b.settlement.Some? {
      AdvanceOutcome(b, now);
    }
    hide AdvanceSettlement, SettlementOk, Clear, StandsByTheDates;
  }

  /** A settlement is made, or its amounts are brought up to date unless it is paid,
      exactly once the activity is completed. A new one is frozen if a case is open. */
  lemma EnsureOutcome(b: Book, periods: Periods)
    ensures EnsureSettlement(b, periods).Ok? <==> b.status == ActivityStatus.Completed
    ensures EnsureSettlement(b, periods).Ok? ==>
      var b' := EnsureSettlement(b, periods).value;
      && b'.settlement.Some? && b' == b.(settlement := b'.settlement)
      && var s' := b'.settlement.value;
        if b.settlement.Some? then
          s' == (if IsSettled(b) then b.settlement.value else b.settlement.value.(amounts := Calculate(b.publish, b.participations)))
        else
          && DatedFrom(b, s', periods) && s'.amounts == Calculate(b.publish, b.participations)
          && s'.riskFrozenAt.None? && s'.settledAt.None?
          && (if Clear(b) then s'.status == Confirming && s'.source == NoDispute else s'.status == DisputeFrozen && s'.source == AfterSalesDispute)
  {
    ClearMeansNoneOpen(b);
    hide Clear, AnyOpenCase, Calculate;
  }

  // ----- cases -----

  // Only this row may have changed.
  predicate OnlyRow(b: Book, b': Book, i: nat) {
    && i < |b.participations| == |b'.participations|
    && b'.participations == b.participations[i := b'.participations[i]]
  }

  /** A case is registered exactly if its user has something to register it for and the
      organizer has not been paid. It is added to the user's row and freezes a completed
      activity's settlement, made for it if need be; a dispute of the back office stays. */
  lemma RegisterOutcome(b: Book, t: Time, i: nat, staff: Option<(nat, nat)>, periods: Periods)
    requires BookOk(b, t) && i < |b.participations|
    ensures var p := b.participations[i];
      var r := RegisterCase(b, p.user, staff, periods);
      && (r.Ok? <==> CreateCase(p, staff).Ok? && (IsSettled(b) ==> HasOpenCase(p)))
      && (r.Ok? && HasOpenCase(p) ==> r.value == b)
      && (r.Ok? && !HasOpenCase(p) ==>
            && OnlyRow(b, r.value, i) && r.value.participations[i] == CreateCase(p, staff).value
            && r.value == b.(participations := r.value.participations, settlement := r.value.settlement)
            && (b.status != ActivityStatus.Completed ==> r.value.settlement == b.settlement)
            && (b.status == ActivityStatus.Completed ==> r.value.settlement.Some? && FrozenBy(b, r.value.settlement.value, periods)))
  {
    var p := b.participations[i];
    FoundAt(b, t, i);
    RowOf(b, t, i);
    assert SettlementOk(b) && (b.settlement.Some? ==> b.status == ActivityStatus.Completed);
    hide BookOk, ParticipationOk, FindUser, CreateCase, HasOpenCase, Calculate, AnyOpenCase, SettlementOk;
    CaseAcceptedIff(p, staff);
    hide Refundable, ReservedPrincipal, ReservedFee;
    if !HasOpenCase(p) && !IsSettled(b) && CreateCase(p, staff).Ok? {
      FreezeOutcome(Put(b, i, CreateCase(p, staff).value), periods);
    }
  }

  predicate FrozenBy(b: Book, s': Settlement, periods: Periods) {
    && s'.status == DisputeFrozen
    && s'.source == (if b.settlement.Some? && b.settlement.value.source == AdminDispute then AdminDispute else AfterSalesDispute)
    && (b.settlement.None? ==> DatedFrom(b, s', periods))
    && (b.settlement.Some? ==> s' == b.settlement.value.(status := DisputeFrozen, source := s'.source))
  }

  lemma FreezeOutcome(b: Book, periods: Periods)
    requires !IsSettled(b) && (b.settlement.Some? ==> b.status == ActivityStatus.Completed)
    requires b.settlement.Some? && b.settlement.value.source == AdminDispute ==> b.settlement.value.status == DisputeFrozen
    ensures FreezeForAfterSales(b, periods).Ok?
    ensures var b' := FreezeForAfterSales(b, periods).value;
      && b' == b.(settlement := b'.settlement)
      && (b.status != ActivityStatus.Completed ==> b'.settlement == b.settlement)
      && (b.status == ActivityStatus.Completed ==> b'.settlement.Some? && FrozenBy(b, b'.settlement.value, periods))
  {
    hide Calculate, AnyOpenCase;
  }

  // What a call does to one case: only a call about it changes it, and only while it is
  // undecided.
  predicate CaseMoves(x: AfterSalesCase, y: AfterSalesCase, c: Call, i: nat, k: nat, accepted: bool) {
    if c == BeginReviewCall(i, k) && x.status == CasePending then y == x.(status := CaseProcessing)
    else if c == EscalateCaseCall(i, k) && Undecided(x) then y == x.(requiresSupervisor := true)
    else if c == DeclineCaseCall(i, k) && Undecided(x) then y == x.(status := CaseRejected)
    else if c.ApproveCall? && c.row == i && c.caseNo == k && accepted then
      && Undecided(x)
      && if c.authorised then
           y == x.(status := CaseApproved, approvedPrincipal := y.approvedPrincipal, approvedFee := y.approvedFee, refund := y.refund)
         else y == x.(requiresSupervisor := true)
    else y == x
  }

  predicate RowCasesMove(p: Participation, q: Participation, c: Call, i: nat, accepted: bool) {
    && |p.cases| <= |q.cases|
    && forall k :: 0 <= k < |p.cases| ==> CaseMoves(p.cases[k], q.cases[k], c, i, k, accepted)
  }

  // ... and only the registration of a case adds one.
  predicate CasesMove(b: Book, b': Book, c: Call, accepted: bool) {
    && |b.participations| <= |b'.participations|
    && (forall i :: 0 <= i < |b.participations| ==>
          && RowCasesMove(b.participations[i], b'.participations[i], c, i, accepted)
          && (!c.RegisterCaseCall? ==> |b'.participations[i].cases| == |b.participations[i].cases|))
    && (forall i :: |b.participations| <= i < |b'.participations| ==> b'.participations[i].cases == [])
  }

  predicate CasesKept(b: Book, b': Book) {
    && |b.participations| <= |b'.participations|
    && (forall i :: 0 <= i < |b.participations| ==> b'.participations[i].cases == b.participations[i].cases)
    && (forall i :: |b.participations| <= i < |b'.participations| ==> b'.participations[i].cases == [])
  }

  predicate IsCaseCall(c: Call) {
    c.RegisterCaseCall? || c.BeginReviewCall? || c.EscalateCaseCall? || c.DeclineCaseCall? || c.ApproveCall?
  }

  lemma KeptMoves(b: Book, b': Book, c: Call, accepted: bool)
    requires CasesKept(b, b') && !IsCaseCall(c)
    ensures CasesMove(b, b', c, accepted)
  {
  }

  lemma OneRowKeepsCases(b: Book, b': Book, i: nat)
    requires OnlyRow(b, b', i) && b'.participations[i].cases == b.participations[i].cases
    ensures CasesKept(b, b')
  {
  }

  lemma SignUpKeepsCases(b: Book, t: Time, user: nat, eligible: bool, cityOpen: bool, timeout: nat, now: Time)
    requires BookOk(b, t) && t <= now && SignUp(b, user, eligible, cityOpen, timeout, now).Ok?
    ensures CasesKept(b, SignUp(b, user, eligible, cityOpen, timeout, now).value)
  {
    hide BookOk, SignUp, Holds, ExpireDue, Lapsed;
    var k := SignUpWrites(b, t, user, eligible, cityOpen, timeout, now);
  }

  lemma SweepKeepsCases(b: Book, t: Time, now: Time)
    requires BookOk(b, t)
    ensures CasesKept(b, ExpireAll(b, now))
  {
    assert RowsOk(b.participations);
    SweepClosesTheDue(b.participations, now);
    hide BookOk, RowsOk, ExpireRows, Lapsed;
  }

  lemma OpeningKeepsCases(b: Book, t: Time, user: nat, available: nat, externalOnly: bool, now: Time)
    requires BookOk(b, t) && t <= now && OpenPayment(b, user, available, externalOnly, now).Ok?
    ensures CasesKept(b, OpenPayment(b, user, available, externalOnly, now).value)
  {
    var i := FindUser(b.participations, user).value;
    RowOf(b, t, i);
    OpeningSplitsByBalance(b, t, i, available, externalOnly, now);
    FoundAt(b, t, i);
    OpeningCall(b, user, available, externalOnly, now);
    hide BookOk, ParticipationOk, FindUser, OpenPayment, Next, SplitFor, Total;
    OneRowKeepsCases(b, OpenPayment(b, user, available, externalOnly, now).value, i);
  }

  lemma SuccessKeepsCases(b: Book, t: Time, i: nat, o: nat, paidAt: Time, now: Time)
    requires BookOk(b, t) && RecordSuccess(b, i, o, paidAt, now).Ok?
    ensures CasesKept(b, RecordSuccess(b, i, o, paidAt, now).value)
  {
    RowOf(b, t, i);
    SuccessKeepsOk(b.participations[i], o, paidAt);
    hide BookOk, ParticipationOk, ApplySuccess, Total;
    OneRowKeepsCases(b, RecordSuccess(b, i, o, paidAt, now).value, i);
  }

  lemma CompensationKeepsCases(b: Book, t: Time, i: nat, o: nat, answer: Option<Time>, now: Time)
    requires BookOk(b, t) && CompensationTask(b, i, o, answer, now).Ok?
    ensures CasesKept(b, CompensationTask(b, i, o, answer, now).value)
  {
    RowOf(b, t, i);
    assert b.participations[i].orders[o].compensation;
    CompensateKeepsOk(b.participations[i], o, answer);
    hide BookOk, ParticipationOk, Compensate;
  }

  lemma CancelOwnKeepsCases(b: Book, t: Time, user: nat, now: Time)
    requires BookOk(b, t) && CancelOwn(b, user, now).Ok?
    ensures CasesKept(b, CancelOwn(b, user, now).value)
  {
    var i := FindUser(b.participations, user).value;
    RowOf(b, t, i);
    SelfCancelKeepsOk(b.participations[i], b.terms.rules, b.terms.startsAt, now);
    hide BookOk, ParticipationOk, SelfCancel, FindUser, Total;
  }

  lemma CancellationKeepsCases(b: Book, t: Time, kind: MassKind, principal: int, fee: int, status: ActivityStatus)
    requires BookOk(b, t) && b.status in {Recruiting, Formed} && status in {CalledOff, NotFormed}
    requires 0 <= principal <= b.publish.principal && 0 <= fee <= b.publish.fee
    ensures CancelEverything(b, kind, principal, fee, status).Ok?
    ensures CasesKept(b, CancelEverything(b, kind, principal, fee, status).value)
  {
    CancelEverythingKeepsOk(b, t, kind, principal, fee, status);
    var b' := CancelEverything(b, kind, principal, fee, status).value;
    assert RowsOk(b.participations);
    hide BookOk, ParticipationOk, MassCancel, CancelEverything;
    forall i | 0 <= i < |b.participations|
      ensures b'.participations[i].cases == b.participations[i].cases
    {
      assert ParticipationOk(b.participations[i]);
      MassCancelKeepsOk(b.participations[i], kind);
    }
  }

  lemma CancelCallsKeepCases(b: Book, t: Time, c: Call, now: Time)
    requires BookOk(b, t) && IsCancellation(c)
    ensures CasesKept(b, Next(b, c, now))
  {
    hide BookOk, CancelEverything, RoundPercent, ActiveCount, CasesKept;
    NothingChanged(b);
    SameCasesKept(b, b.(status := Formed));
    if b.status in {Recruiting, Formed} {
      PercentWithin(b.publish.principal, 70);
      match c
      case CancelByOrganizerCall =>
        CancellationKeepsCases(b, t, OrganizerCancellation, b.publish.principal, b.publish.fee, CalledOff);
        CancellationKeepsCases(b, t, OrganizerCancellation, b.publish.principal, 0, CalledOff);
        CancellationKeepsCases(b, t, OrganizerCancellation, RoundPercent(b.publish.principal, 70), 0, CalledOff);
      case CancelByAdminCall =>
        CancellationKeepsCases(b, t, AdminCancellation, b.publish.principal, b.publish.fee, CalledOff);
      case FailUnformedCall =>
        CancellationKeepsCases(b, t, FailedToForm, b.publish.principal, b.publish.fee, NotFormed);
    }
  }

  lemma NothingChanged(b: Book)
    ensures CasesKept(b, b)
  {
  }

  lemma SameCasesKept(b: Book, b': Book)
    requires b'.participations == b.participations
    ensures CasesKept(b, b')
  {
  }

  lemma RefundKeepsCases(b: Book, t: Time, i: nat, ref: RefundRef, step: Progress, at: Time)
    requires BookOk(b, t) && RefundProgress(b, i, ref, step, at).Ok?
    ensures CasesKept(b, RefundProgress(b, i, ref, step, at).value)
  {
    RowOf(b, t, i);
    AdvanceKeepsOk(b.participations[i], ref, step);
    ReleaseFrame(Put(b, i, Participations.Advance(b.participations[i], ref, step).value), at);
    hide BookOk, ParticipationOk, Participations.Advance, ReleaseAfterSales, RefundStatusAt;
  }

  lemma SettlementCallsKeepRows(b: Book, c: Call, now: Time)
    requires c.EnsureSettlementCall? || c.AdvanceSettlementCall? || c.FreezeByAdminCall? || c.ReleaseByAdminCall? || c.SettleByAdminCall?
    ensures Next(b, c, now).participations == b.participations
  {
    hide Calculate, AnyOpenCase, AnyUndecidedCase;
  }

  lemma OtherCallsKeepCases(b: Book, t: Time, c: Call, now: Time)
    requires BookOk(b, t) && t <= now && !IsCaseCall(c)
    ensures CasesKept(b, Next(b, c, now))
  {
    hide BookOk, CasesKept, SignUp, ExpireAll, ExpireOne, OpenPayment, RecordSuccess, CompensationTask, CancelOwn, CancelByOrganizer, CancelByAdmin,
      FailUnformed, RefundPublish, RefundProgress, EnsureSettlement, AdvanceSettlement, FreezeByAdmin, ReleaseByAdmin, SettleByAdmin;
    NothingChanged(b);
    if Try(b, c, now).Ok? {
      match c
      case SignUpCall(user, eligible, cityOpen, timeout) => SignUpKeepsCases(b, t, user, eligible, cityOpen, timeout, now);
      case ExpireOrderCall(i, o) =>
        OrderJobClosesTheDue(b, t, i, o, now);
        OneRowKeepsCases(b, Next(b, c, now), i);
      case ExpireAllCall => SweepKeepsCases(b, t, now);
      case OpenPaymentCall(user, available, externalOnly) => OpeningKeepsCases(b, t, user, available, externalOnly, now);
      case ChannelSuccessCall(i, o, paidAt) => SuccessKeepsCases(b, t, i, o, paidAt, now);
      case CompensationCall(i, o, answer) => CompensationKeepsCases(b, t, i, o, answer, now);
      case CancelOwnCall(user) => CancelOwnKeepsCases(b, t, user, now);
      case RefundCall(i, ref, step, at) => RefundKeepsCases(b, t, i, ref, step, if step == TakeUp then now else at);
      case _ =>
        if IsCancellation(c) {
          CancelCallsKeepCases(b, t, c, now);
        } else {
          SameRows(b, c, now);
          SameCasesKept(b, Next(b, c, now));
        }
    }
  }

  lemma SameRows(b: Book, c: Call, now: Time)
    requires
      || c.ReviewApproveCall? || c.ReviewRejectCall? || c.StartCall? || c.CompleteCall?
      || c.EnsureSettlementCall? || c.AdvanceSettlementCall? || c.FreezeByAdminCall? || c.ReleaseByAdminCall? || c.SettleByAdminCall?
    ensures Next(b, c, now).participations == b.participations
  {
    hide EnsureSettlement, AdvanceSettlement, FreezeByAdmin, ReleaseByAdmin, SettleByAdmin, RefundPublish;
    if c.EnsureSettlementCall? || c.AdvanceSettlementCall? || c.FreezeByAdminCall? || c.ReleaseByAdminCall? || c.SettleByAdminCall? {
      SettlementCallsKeepRows(b, c, now);
    }
  }

  // The call is about this case.
  predicate About(c: Call, i: nat, k: nat) {
    c == BeginReviewCall(i, k) || c == EscalateCaseCall(i, k) || c == DeclineCaseCall(i, k) || (c.ApproveCall? && c.row == i && c.caseNo == k)
  }

  lemma OneCaseMoves(b: Book, b': Book, c: Call, i: nat, k: nat, accepted: bool)
    requires CaseExists(b, i, k) && About(c, i, k) && OnlyRow(b, b', i)
    requires |b'.participations[i].cases| == |b.participations[i].cases|
    requires b'.participations[i].cases == b.participations[i].cases[k := b'.participations[i].cases[k]]
    requires CaseMoves(b.participations[i].cases[k], b'.participations[i].cases[k], c, i, k, accepted)
    ensures CasesMove(b, b', c, accepted)
  {
    forall j, l: nat | 0 <= j < |b.participations| && l < |b.participations[j].cases| && !(j == i && l == k)
      ensures CaseMoves(b.participations[j].cases[l], b.participations[j].cases[l], c, j, l, accepted)
    {
    }
    hide CaseMoves, About;
  }

  lemma NoSuchCaseMoves(b: Book, c: Call, i: nat, k: nat)
    requires !CaseExists(b, i, k) && About(c, i, k)
    ensures CasesMove(b, b, c, false)
  {
  }

  lemma ReviewCallMoves(b: Book, c: Call, i: nat, k: nat, now: Time)
    requires c == BeginReviewCall(i, k) || c == EscalateCaseCall(i, k) || c == DeclineCaseCall(i, k)
    ensures CasesMove(b, Next(b, c, now), c, Try(b, c, now).Ok?)
    ensures Try(b, c, now).Ok? <==>
      CaseExists(b, i, k) && (if c.BeginReviewCall? then b.participations[i].cases[k].status == CasePending else Undecided(b.participations[i].cases[k]))
  {
    hide CasesMove, ReleaseAfterSales;
    if CaseExists(b, i, k) {
      if Try(b, c, now).Ok? && c.DeclineCaseCall? {
        ReleaseFrame(Put(b, i, RejectCase(b.participations[i], k).value), now);
      }
      OneCaseMoves(b, Next(b, c, now), c, i, k, Try(b, c, now).Ok?);
    } else {
      NoSuchCaseMoves(b, c, i, k);
    }
  }

  lemma ApprovedCaseMoves(p: Participation, k: nat, principal: Option<int>, fee: Option<int>, authorised: bool)
    requires k < |p.cases| && ApproveCase(p, k, principal, fee, authorised).Ok?
    ensures var q := ApproveCase(p, k, principal, fee, authorised).value;
      && Undecided(p.cases[k]) && |q.cases| == |p.cases| && q.cases == p.cases[k := q.cases[k]]
      && var x, y := p.cases[k], q.cases[k];
        if authorised then
          y == x.(status := CaseApproved, approvedPrincipal := y.approvedPrincipal, approvedFee := y.approvedFee, refund := y.refund)
        else y == x.(requiresSupervisor := true)
  {
    hide Total, Newest, FindKey, AddRefund;
  }

  lemma ApproveCallMovesCases(b: Book, i: nat, k: nat, principal: Option<int>, fee: Option<int>, authorised: bool, now: Time)
    ensures var c := ApproveCall(i, k, principal, fee, authorised); CasesMove(b, Next(b, c, now), c, Try(b, c, now).Ok?)
    ensures Approve(b, i, k, principal, fee, authorised, now).Ok? <==>
      CaseExists(b, i, k) && !IsSettled(b) && ApproveCase(b.participations[i], k, principal, fee, authorised).Ok?
  {
    var c := ApproveCall(i, k, principal, fee, authorised);
    hide CasesMove, ReleaseAfterSales, ApproveCase, Sync;
    if CaseExists(b, i, k) {
      if ApproveCase(b.participations[i], k, principal, fee, authorised).Ok? {
        ApprovedCaseMoves(b.participations[i], k, principal, fee, authorised);
        var b' := Put(b, i, ApproveCase(b.participations[i], k, principal, fee, authorised).value);
        SyncFrame(b', now);
        ReleaseFrame(b', now);
        ReleaseFrame(Sync(b', now), now);
      }
      OneCaseMoves(b, Next(b, c, now), c, i, k, Try(b, c, now).Ok?);
    } else {
      NoSuchCaseMoves(b, c, i, k);
    }
  }

  lemma RegisterMovesCases(b: Book, user: nat, staff: Option<(nat, nat)>, periods: Periods, now: Time)
    ensures var c := RegisterCaseCall(user, staff, periods); CasesMove(b, Next(b, c, now), c, Try(b, c, now).Ok?)
  {
    var c := RegisterCaseCall(user, staff, periods);
    hide FindUser, CreateCase, HasOpenCase, FreezeForAfterSales;
    if RegisterCase(b, user, staff, periods).Ok? {
      var i := FindUser(b.participations, user).value;
      if !HasOpenCase(b.participations[i]) {
        CreatedLast(b.participations[i], staff);
        FreezeFrame(Put(b, i, CreateCase(b.participations[i], staff).value), periods);
      }
    }
  }

  lemma CreatedLast(p: Participation, staff: Option<(nat, nat)>)
    requires CreateCase(p, staff).Ok?
    ensures p.cases <= CreateCase(p, staff).value.cases
  {
    hide HasOpenCase, Newest, Total;
  }

  /** Exactly what every call does to every case: a review call moves the case it is about
      if that is undecided, an accepted approval decides it, a registration adds one, and
      nothing else changes any case. */
  lemma NextMovesCases(b: Book, t: Time, c: Call, now: Time)
    requires BookOk(b, t) && t <= now
    ensures CasesMove(b, Next(b, c, now), c, Try(b, c, now).Ok?)
  {
    hide BookOk, CasesMove, CasesKept, Next, Try;
    match c
    case RegisterCaseCall(user, staff, periods) => RegisterMovesCases(b, user, staff, periods, now);
    case BeginReviewCall(i, k) => ReviewCallMoves(b, c, i, k, now);
    case EscalateCaseCall(i, k) => ReviewCallMoves(b, c, i, k, now);
    case DeclineCaseCall(i, k) => ReviewCallMoves(b, c, i, k, now);
    case ApproveCall(i, k, principal, fee, authorised) => ApproveCallMovesCases(b, i, k, principal, fee, authorised, now);
    case _ =>
      OtherCallsKeepCases(b, t, c, now);
      KeptMoves(b, Next(b, c, now), c, Try(b, c, now).Ok?);
  }

  // A case keeps what it asks for, never loses its supervisor mark, and once decided
  // does not change.
  predicate CaseExtends(x: AfterSalesCase, y: AfterSalesCase) {
    && y.requestedPrincipal == x.requestedPrincipal && y.requestedFee == x.requestedFee
    && (x.requiresSupervisor ==> y.requiresSupervisor)
    && (y.status == CasePending ==> x.status == CasePending)
    && (!Undecided(x) ==> y == x)
  }

  predicate CasesExtend(b: Book, b': Book) {
    && |b.participations| <= |b'.participations|
    && forall i :: 0 <= i < |b.participations| ==>
         && |b.participations[i].cases| <= |b'.participations[i].cases|
         && forall k :: 0 <= k < |b.participations[i].cases| ==> CaseExtends(b.participations[i].cases[k], b'.participations[i].cases[k])
  }

  lemma MovedCasesExtend(b: Book, b': Book, c: Call, accepted: bool)
    requires CasesMove(b, b', c, accepted)
    ensures CasesExtend(b, b')
  {
    forall i, k | 0 <= i < |b.participations| && 0 <= k < |b.participations[i].cases|
      ensures CaseExtends(b.participations[i].cases[k], b'.participations[i].cases[k])
    {
      assert CaseMoves(b.participations[i].cases[k], b'.participations[i].cases[k], c, i, k, accepted);
    }
    hide CaseMoves, CaseExtends;
  }

  lemma CasesExtendTransitive(a: Book, b: Book, c: Book)
    requires CasesExtend(a, b) && CasesExtend(b, c)
    ensures CasesExtend(a, c)
  {
  }

  lemma CasesExtendSelf(b: Book)
    ensures CasesExtend(b, b)
  {
  }

  /** Decisions are final: over any run a case that was approved or turned down never
      changes again, and an undecided one never becomes pending or loses its mark. */
  lemma {:induction false} DecisionsAreFinal(b: Book, t: Time, es: seq<Event>)
    requires BookOk(b, t) && Ordered(es, t)
    ensures CasesExtend(b, Run(b, es))
  {
    hide BookOk, Next, CasesExtend, CasesMove, Try;
    CasesExtendSelf(b);
    if es != [] {
      var n := |es| - 1;
      var before := Run(b, es[..n]);
      DecisionsAreFinal(b, t, es[..n]);
      RunKeepsOk(b, t, es[..n]);
      NextMovesCases(before, Clock(es[..n], t), es[n].call, es[n].at);
      MovedCasesExtend(before, Run(b, es), es[n].call, Try(before, es[n].call, es[n].at).Ok?);
      CasesExtendTransitive(b, before, Run(b, es));
    }
  }

  // ----- the end of an after-sales dispute -----

  predicate ForCases(b: Book) { b.settlement.Some? && b.settlement.value.source == AfterSalesDispute && !IsSettled(b) }

  lemma ReleaseFollowsCases(b: Book, now: Time)
    requires SettlementOk(b) && ForCases(b)
    ensures var s' := ReleaseAfterSales(b, now).settlement;
      && s'.Some?
      && if Clear(b) then
           s'.value.source == NoDispute && s'.value.amounts == Calculate(b.publish, b.participations)
           && s'.value.status == (if now < b.settlement.value.confirmationDeadline then Confirming else RiskFrozen)
         else s' == b.settlement
  {
    ClearMeansNoneOpen(b);
    hide Clear, AnyOpenCase, Calculate, Margin;
  }

  lemma UnpaidStaysOk(b: Book, b': Book)
    requires SettlementOk(b) && !IsSettled(b) && b'.settlement == b.settlement
    ensures SettlementOk(b')
  {
  }

  // An after-sales refund was carried out by this call.
  predicate Completes(b: Book, c: Call, b': Book) {
    && c.RefundCall?
    && c.row < |b.participations| && RefExists(b.participations[c.row], c.ref)
    && b.participations[c.row].orders[c.ref.order].refunds[c.ref.refund].key.AfterSalesKey?
    && b.participations[c.row].orders[c.ref.order].refunds[c.ref.refund].status != RefundSucceeded
    && c.row < |b'.participations| && RefundStatusAt(b'.participations[c.row], c.ref) == RefundSucceeded
  }

  // The dispute is over exactly if every case is.
  predicate EndsWithCases(b': Book) {
    b'.settlement.Some? && (b'.settlement.value.source == NoDispute <==> Clear(b'))
  }

  lemma ReleasedAfter(b: Book, b1: Book, now: Time)
    requires SettlementOk(b) && ForCases(b) && b1.settlement == b.settlement
    ensures EndsWithCases(ReleaseAfterSales(b1, now))
  {
    UnpaidStaysOk(b, b1);
    ReleaseFollowsCases(b1, now);
    ReleaseFrame(b1, now);
    SameClear(b1, ReleaseAfterSales(b1, now));
    hide SettlementOk, Clear, ReleaseAfterSales, Calculate;
  }

  lemma DeclineEnds(b: Book, i: nat, k: nat, now: Time)
    requires SettlementOk(b) && ForCases(b) && DeclineCase(b, i, k, now).Ok?
    ensures EndsWithCases(DeclineCase(b, i, k, now).value)
  {
    hide SettlementOk, Clear, ReleaseAfterSales, RejectCase;
    ReleasedAfter(b, Put(b, i, RejectCase(b.participations[i], k).value), now);
  }

  lemma ApprovalEnds(b: Book, i: nat, k: nat, principal: Option<int>, fee: Option<int>, now: Time)
    requires SettlementOk(b) && ForCases(b) && b.status == ActivityStatus.Completed && Approve(b, i, k, principal, fee, true, now).Ok?
    ensures EndsWithCases(Approve(b, i, k, principal, fee, true, now).value)
  {
    hide SettlementOk, Clear, ReleaseAfterSales, ApproveCase;
    ReleasedAfter(b, Put(b, i, ApproveCase(b.participations[i], k, principal, fee, true).value), now);
  }

  lemma RefundEnds(b: Book, i: nat, ref: RefundRef, step: Progress, at: Time)
    requires SettlementOk(b) && ForCases(b) && RefundProgress(b, i, ref, step, at).Ok?
    requires b.participations[i].orders[ref.order].refunds[ref.refund].key.AfterSalesKey?
    requires b.participations[i].orders[ref.order].refunds[ref.refund].status != RefundSucceeded
    requires RefundStatusAt(RefundProgress(b, i, ref, step, at).value.participations[i], ref) == RefundSucceeded
    ensures EndsWithCases(RefundProgress(b, i, ref, step, at).value)
  {
    hide SettlementOk, Clear, ReleaseAfterSales, Advance, RefundStatusAt;
    var b1 := Put(b, i, Participations.Advance(b.participations[i], ref, step).value);
    ReleaseFrame(b1, at);
    ReleasedAfter(b, b1, at);
  }

  /** The call that closes the last case, by turning it down, by settling it or by carrying
      out its refund, ends the after-sales dispute; as long as a case is open none does. */
  lemma DisputeEndsWithTheLastCase(b: Book, t: Time, c: Call, now: Time)
    requires BookOk(b, t) && ForCases(b) && Try(b, c, now).Ok?
    requires c.DeclineCaseCall? || (c.ApproveCall? && c.authorised) || Completes(b, c, Next(b, c, now))
    ensures EndsWithCases(Next(b, c, now))
  {
    assert SettlementOk(b) && b.status == ActivityStatus.Completed;
    hide BookOk, SettlementOk, EndsWithCases, DeclineCase, Approve, RefundProgress, RefundStatusAt;
    match c
    case DeclineCaseCall(i, k) => DeclineEnds(b, i, k, now);
    case ApproveCall(i, k, principal, fee, _) => ApprovalEnds(b, i, k, principal, fee, now);
    case RefundCall(i, ref, step, at) => RefundEnds(b, i, ref, step, if step == TakeUp then now else at);
  }
}
