/** The book of one published activity, and every service call that changes it.
    A call is one database transaction: refused, it leaves the book as it was. */
module Activities {
  import opened Wrappers
  import opened Totals
  import opened WalletAllocations
  import opened PaymentOrders
  import opened Participations
  import opened Settlements

  datatype ActivityStatus =
    UnderReview | Rejected | Recruiting | Formed | InProgress | Completed | CalledOff | NotFormed

  datatype Terms = Terms(
    capacity: nat,
    minParticipants: nat,
    principal: nat,
    fee: nat,
    formationDeadline: Time,
    startsAt: Time,
    endsAt: Time,
    rules: seq<RefundRule>)

  datatype SettlementStatus = Confirming | RiskFrozen | DisputeFrozen | Settled

  datatype DisputeSource = NoDispute | AfterSalesDispute | AdminDispute

  datatype Settlement = Settlement(
    amounts: Amounts,
    status: SettlementStatus,
    source: DisputeSource,
    confirmationDeadline: Time,
    freezeUntil: Time,
    riskFrozenAt: Option<Time>,
    settledAt: Option<Time>)

  // The platform's confirmation and risk-freeze periods when a settlement is created.
  datatype Periods = Periods(confirmation: nat, freeze: nat)

  datatype Book = Book(
    terms: Terms,
    status: ActivityStatus,
    publishedAt: Time,
    publish: PublishOrder,
    participations: seq<Participation>,
    settlement: Option<Settlement>)

  // ----- counting -----

  function ActiveCount(b: Book): int { Total(b.participations, ActiveOf) }

  function SeatCount(b: Book): int { Total(b.participations, SeatOf) }

  function OccupiedCount(b: Book, now: Time): int { Total(b.participations, OccupiedBy(now)) }

  function FindUser(ps: seq<Participation>, user: nat): (r: Option<nat>)
    ensures r.Some? ==> r.value < |ps| && ps[r.value].user == user
    ensures r.None? ==> forall p :: p in ps ==> p.user != user
  {
    if ps == [] then None
    else if ps[|ps| - 1].user == user then Some(|ps| - 1)
    else FindUser(ps[..|ps| - 1], user)
  }

  function Put(b: Book, i: nat, p: Participation): Book
    requires i < |b.participations|
  {
    b.(participations := b.participations[i := p])
  }

  // Forming and un-forming as the number of participants changes.
  function Sync(b: Book, now: Time): Book {
    if b.status !in {Recruiting, Formed} then b
    else if ActiveCount(b) >= b.terms.minParticipants then b.(status := Formed)
    else if b.status == Formed && b.terms.formationDeadline > now then b.(status := Recruiting)
    else b
  }

  // ----- review -----

  function ReviewApprove(b: Book, guards: bool, now: Time): Result<Book> {
    if b.status != UnderReview then Refused(StatusForbids)
    else if b.publish.status != PublishPaid then Refused(PaymentMissing)
    else if !guards || b.terms.formationDeadline <= now || b.terms.startsAt <= now then Refused(SignUpClosed)
    else Ok(b.(status := Recruiting, publishedAt := now))
  }

  function ReviewReject(b: Book): Result<Book> {
    if b.status != UnderReview then Refused(StatusForbids)
    else if b.publish.status != PublishPaid then Refused(PaymentMissing)
    else
      var publish :- RefundPublish(b.publish, b.publish.principal, b.publish.fee);
      Ok(b.(status := Rejected, publish := publish))
  }

  // ----- sign-up and hold expiry -----

  function ExpireRows(ps: seq<Participation>, now: Time): (r: seq<Participation>)
    ensures |r| == |ps|
  {
    if ps == [] then [] else ExpireRows(ps[..|ps| - 1], now) + [ExpireDue(ps[|ps| - 1], now)]
  }

  function ExpireAll(b: Book, now: Time): Book {
    b.(participations := ExpireRows(b.participations, now))
  }

  predicate HasRefundable(p: Participation) { LatestRefundable(p).Some? }

  predicate HasLiveOrder(p: Participation, now: Time) {
    OpenOrder(p).Some? && p.orders[OpenOrder(p).value].expiresAt > now
  }

  /** `eligible` stands for what is looked up elsewhere: an active account that is
      not the organizer's, visible content, payments switched on. */
  function SignUp(b: Book, user: nat, eligible: bool, cityOpen: bool, timeout: nat, now: Time): Result<Book> {
    if !eligible || b.status !in {Recruiting, Formed} || b.terms.formationDeadline <= now then Refused(SignUpClosed)
    else
      var swept := ExpireAll(b, now);
      var found := FindUser(swept.participations, user);
      if found.Some? && swept.participations[found.value].status == Active then
        if HasRefundable(swept.participations[found.value]) then Ok(swept) else Refused(PaymentMissing)
      else if found.Some? && HasLiveOrder(swept.participations[found.value], now) then Ok(swept)
      else if !cityOpen then Refused(CityClosed)
      else if OccupiedCount(swept, now) >= b.terms.capacity then Refused(SeatsFull)
      else if found.Some? then
        Ok(Put(swept, found.value, SignUpAgain(swept.participations[found.value], b.terms.principal, b.terms.fee, now + timeout)))
      else
        Ok(swept.(participations := swept.participations + [NewParticipation(user, b.terms.principal, b.terms.fee, now + timeout)]))
  }

  function ExpireOrder(b: Book, i: nat, o: nat, now: Time): Result<Book> {
    if i >= |b.participations| || o >= |b.participations[i].orders| then Refused(NoSuchRecord)
    else Ok(Put(b, i, ExpireOne(b.participations[i], o, now)))
  }

  // ----- payment -----

  function RecordSuccess(b: Book, i: nat, o: nat, paidAt: Time, now: Time): Result<Book> {
    if i >= |b.participations| || o >= |b.participations[i].orders| then Refused(NoSuchRecord)
    else
      var s :- ApplySuccess(b.participations[i], o, paidAt);
      var b' := Put(b, i, s.participation);
      Ok(if s.changed && !s.late then Sync(b', now) else b')
  }

  // Opening a payment session splits the amount; a wallet that covers it all pays at once.
  function OpenPayment(b: Book, user: nat, available: nat, externalOnly: bool, now: Time): Result<Book> {
    var found := FindUser(b.participations, user);
    if found.None? || b.participations[found.value].orders == [] then Refused(NoSuchRecord)
    else
      var p := b.participations[found.value];
      var n := |p.orders| - 1;
      var order :- OpenSession(p.orders[n], available, externalOnly, now);
      var b' := Put(b, found.value, p.(orders := p.orders[n := order]));
      if order.allocation.Some? && order.allocation.value.external == 0 then RecordSuccess(b', found.value, n, now, now) else Ok(b')
  }

  function CompensationTask(b: Book, i: nat, o: nat, paidAt: Option<Time>, now: Time): Result<Book> {
    if i >= |b.participations| || o >= |b.participations[i].orders| then Refused(NoSuchRecord)
    else
      var p :- Compensate(b.participations[i], o, paidAt);
      Ok(Put(b, i, p))
  }

  // ----- cancellation -----

  function CancelOwn(b: Book, user: nat, now: Time): Result<Book> {
    var found := FindUser(b.participations, user);
    if found.None? then Refused(NoSuchRecord)
    else
      var p := b.participations[found.value];
      var q :- SelfCancel(p, b.terms.rules, b.terms.startsAt, now);
      var b' := Put(b, found.value, q);
      Ok(if p.status == Active then Sync(b', now) else b')
  }

  function CancelRows(ps: seq<Participation>, kind: MassKind): (r: Result<seq<Participation>>)
    ensures r.Ok? ==> |r.value| == |ps|
  {
    if ps == [] then Ok([])
    else
      var before :- CancelRows(ps[..|ps| - 1], kind);
      var p :- MassCancel(ps[|ps| - 1], kind);
      Ok(before + [p])
  }

  function CancelEverything(b: Book, kind: MassKind, principal: int, fee: int, status: ActivityStatus): Result<Book> {
    var ps :- CancelRows(b.participations, kind);
    var publish :- RefundPublish(b.publish, principal, fee);
    Ok(b.(participations := ps, publish := publish, status := status))
  }

  function CancelByOrganizer(b: Book, now: Time): Result<Book> {
    if b.status !in {Recruiting, Formed} then Refused(StatusForbids)
    else if b.terms.startsAt <= now then Refused(AlreadyStarted)
    else if b.publish.status == PublishRefunded then Refused(PaymentMissing)
    else if now - b.publishedAt <= 12 * 3600 then
      CancelEverything(b, OrganizerCancellation, b.publish.principal, b.publish.fee, CalledOff)
    else if b.terms.startsAt - now >= 6 * 3600 then
      CancelEverything(b, OrganizerCancellation, b.publish.principal, 0, CalledOff)
    else
      CancelEverything(b, OrganizerCancellation, RoundPercent(b.publish.principal, 70), 0, CalledOff)
  }

  function CancelByAdmin(b: Book): Result<Book> {
    if b.status !in {Recruiting, Formed} then Refused(StatusForbids)
    else if b.publish.status != PublishPaid then Refused(PaymentMissing)
    else CancelEverything(b, AdminCancellation, b.publish.principal, b.publish.fee, CalledOff)
  }

  // The formation deadline: the middle branch rescues an activity that has enough people.
  function FailUnformed(b: Book, now: Time): Result<Book> {
    if b.status != Recruiting || b.terms.formationDeadline > now then Ok(b)
    else if ActiveCount(b) >= b.terms.minParticipants then Ok(b.(status := Formed))
    else if b.publish.status == PublishRefunded then Refused(PaymentMissing)
    else CancelEverything(b, FailedToForm, b.publish.principal, b.publish.fee, NotFormed)
  }

  function Start(b: Book, now: Time): Book {
    if b.status != Formed || b.terms.startsAt > now then b else b.(status := InProgress)
  }

  function Complete(b: Book, now: Time): Book {
    if b.status != InProgress || b.terms.endsAt > now then b else b.(status := Completed)
  }

  // ----- settlement -----

  predicate AnyOpenCase(b: Book) {
    exists p :: p in b.participations && HasOpenCase(p)
  }

  predicate AnyUndecidedCase(b: Book) {
    exists p :: p in b.participations && HasUndecidedCase(p)
  }

  predicate IsSettled(b: Book) { b.settlement.Some? && b.settlement.value.status == Settled }

  function EnsureSettlement(b: Book, periods: Periods): Result<Book> {
    if b.status != Completed then Refused(StatusForbids)
    else
      var amounts := Calculate(b.publish, b.participations);
      match b.settlement
      case Some(s) => Ok(if s.status == Settled then b else b.(settlement := Some(s.(amounts := amounts))))
      case None =>
        var open := AnyOpenCase(b);
        var deadline := b.terms.endsAt + periods.confirmation;
        Ok(b.(settlement := Some(Settlement(
                amounts,
                if open then DisputeFrozen else Confirming,
                if open then AfterSalesDispute else NoDispute,
                deadline, deadline + periods.freeze, None, None))))
  }

  function FreezeForAfterSales(b: Book, periods: Periods): Result<Book> {
    var b' :- if b.settlement.None? && b.status == Completed then EnsureSettlement(b, periods) else Ok(b);
    match b'.settlement
    case None => Ok(b')
    case Some(s) =>
      if s.status == Settled then Refused(AlreadySettled)
      else if s.source == AdminDispute then Ok(b')
      else Ok(b'.(settlement := Some(s.(status := DisputeFrozen, source := AfterSalesDispute))))
  }

  // Back to the stage the clock says, with no dispute.
  function Thawed(s: Settlement, now: Time): Settlement {
    if now < s.confirmationDeadline then s.(status := Confirming, riskFrozenAt := None, source := NoDispute)
    else s.(status := RiskFrozen, riskFrozenAt := Some(s.confirmationDeadline), source := NoDispute)
  }

  function ReleaseAfterSales(b: Book, now: Time): Book {
    match b.settlement
    case None => b
    case Some(s) =>
      if s.status == Settled || s.source != AfterSalesDispute || AnyOpenCase(b) then b
      else b.(settlement := Some(Thawed(s.(amounts := Calculate(b.publish, b.participations)), now)))
  }

  function AdvanceStage(s: Settlement, now: Time): Settlement {
    var s1 :=
      if s.status == Confirming && now >= s.confirmationDeadline then
        s.(status := RiskFrozen, riskFrozenAt := Some(s.confirmationDeadline))
      else s;
    if s1.status == RiskFrozen && now >= s1.freezeUntil then s1.(status := Settled, settledAt := Some(now)) else s1
  }

  function AdvanceSettlement(b: Book, now: Time): Result<Book> {
    match b.settlement
    case None => Refused(NoSuchRecord)
    case Some(s) =>
      if s.status == Settled then Ok(b)
      else if AnyOpenCase(b) then
        Ok(if s.source == AdminDispute then b else b.(settlement := Some(s.(status := DisputeFrozen, source := AfterSalesDispute))))
      else if s.source == AdminDispute then Ok(b)
      else
        var b' := ReleaseAfterSales(b, now);
        var s' := b'.settlement.value;
        Ok(b'.(settlement := Some(AdvanceStage(s'.(amounts := Calculate(b'.publish, b'.participations)), now))))
  }

  function FreezeByAdmin(b: Book): Result<Book> {
    match b.settlement
    case None => Refused(NoSuchRecord)
    case Some(s) =>
      if s.status == Settled then Refused(AlreadySettled)
      else Ok(b.(settlement := Some(s.(status := DisputeFrozen, source := AdminDispute))))
  }

  // Only cases still to be decided block the release; advancing checks the rest.
  function ReleaseByAdmin(b: Book, now: Time): Result<Book> {
    match b.settlement
    case None => Refused(NoSuchRecord)
    case Some(s) =>
      if s.source != AdminDispute then Refused(StatusForbids)
      else if AnyUndecidedCase(b) then Refused(AfterSalesOpen)
      else AdvanceSettlement(b.(settlement := Some(Thawed(s, now))), now)
  }

  function SettleByAdmin(b: Book, now: Time): Result<Book> {
    if b.settlement.Some? && b.settlement.value.source == AdminDispute then Refused(StatusForbids)
    else AdvanceSettlement(b, now)
  }

  // ----- after-sales -----

  function RegisterCase(b: Book, user: nat, staff: Option<(nat, nat)>, periods: Periods): Result<Book> {
    var found := FindUser(b.participations, user);
    if found.None? then Refused(NoSuchRecord)
    else
      var p := b.participations[found.value];
      if HasOpenCase(p) then (if staff.None? then Ok(b) else Refused(AfterSalesOpen))
      else if IsSettled(b) then Refused(AlreadySettled)
      else
        var q :- CreateCase(p, staff);
        FreezeForAfterSales(Put(b, found.value, q), periods)
  }

  predicate CaseExists(b: Book, i: nat, c: nat) {
    i < |b.participations| && c < |b.participations[i].cases|
  }

  function BeginReview(b: Book, i: nat, c: nat): Result<Book> {
    if !CaseExists(b, i, c) then Refused(NoSuchRecord)
    else
      var q :- StartReview(b.participations[i], c);
      Ok(Put(b, i, q))
  }

  function EscalateCase(b: Book, i: nat, c: nat): Result<Book> {
    if !CaseExists(b, i, c) then Refused(NoSuchRecord)
    else
      var q :- Escalate(b.participations[i], c);
      Ok(Put(b, i, q))
  }

  function DeclineCase(b: Book, i: nat, c: nat, now: Time): Result<Book> {
    if !CaseExists(b, i, c) then Refused(NoSuchRecord)
    else
      var q :- RejectCase(b.participations[i], c);
      Ok(ReleaseAfterSales(Put(b, i, q), now))
  }

  function Approve(b: Book, i: nat, c: nat, principal: Option<int>, fee: Option<int>, authorised: bool, now: Time): Result<Book> {
    if !CaseExists(b, i, c) then Refused(NoSuchRecord)
    else
      var p := b.participations[i];
      if p.cases[c].status !in {CasePending, CaseProcessing} then Refused(StatusForbids)
      else if IsSettled(b) then Refused(AlreadySettled)
      else
        var q :- ApproveCase(p, c, principal, fee, authorised);
        var b' := Put(b, i, q);
        if !authorised then Ok(b')
        else Ok(ReleaseAfterSales(if p.status == Active then Sync(b', now) else b', now))
  }

  // ----- refunds -----

  /** A refund is taken up or the channel's final answer is recorded. Completing an
      after-sales refund also lets the settlement go on, as of `at`. */
  function RefundProgress(b: Book, i: nat, ref: RefundRef, step: Progress, at: Time): Result<Book> {
    if i >= |b.participations| || !RefExists(b.participations[i], ref) then Refused(NoSuchRecord)
    else
      var p := b.participations[i];
      var q :- Participations.Advance(p, ref, step);
      var b' := Put(b, i, q);
      var before := p.orders[ref.order].refunds[ref.refund];
      if RefundStatusAt(q, ref) == RefundSucceeded && before.status != RefundSucceeded && before.key.AfterSalesKey? then
        Ok(ReleaseAfterSales(b', at))
      else Ok(b')
  }

  // ----- all calls -----

  datatype Call =
    | ReviewApproveCall(guards: bool)
    | ReviewRejectCall
    | SignUpCall(user: nat, eligible: bool, cityOpen: bool, timeout: nat)
    | ExpireOrderCall(row: nat, order: nat)
    | ExpireAllCall
    | OpenPaymentCall(user: nat, available: nat, externalOnly: bool)
    | ChannelSuccessCall(row: nat, order: nat, paidAt: Time)
    | CompensationCall(row: nat, order: nat, answer: Option<Time>)
    | CancelOwnCall(user: nat)
    | CancelByOrganizerCall
    | CancelByAdminCall
    | FailUnformedCall
    | StartCall
    | CompleteCall
    | RegisterCaseCall(user: nat, staff: Option<(nat, nat)>, periods: Periods)
    | BeginReviewCall(row: nat, caseNo: nat)
    | EscalateCaseCall(row: nat, caseNo: nat)
    | DeclineCaseCall(row: nat, caseNo: nat)
    | ApproveCall(row: nat, caseNo: nat, principal: Option<int>, fee: Option<int>, authorised: bool)
    | RefundCall(row: nat, ref: RefundRef, step: Progress, at: Time)
    | EnsureSettlementCall(periods: Periods)
    | AdvanceSettlementCall
    | FreezeByAdminCall
    | ReleaseByAdminCall
    | SettleByAdminCall

  function Try(b: Book, c: Call, now: Time): Result<Book> {
    match c
    case ReviewApproveCall(guards) => ReviewApprove(b, guards, now)
    case ReviewRejectCall => ReviewReject(b)
    case SignUpCall(user, eligible, cityOpen, timeout) => SignUp(b, user, eligible, cityOpen, timeout, now)
    case ExpireOrderCall(i, o) => ExpireOrder(b, i, o, now)
    case ExpireAllCall => Ok(ExpireAll(b, now))
    case OpenPaymentCall(user, available, externalOnly) => OpenPayment(b, user, available, externalOnly, now)
    case ChannelSuccessCall(i, o, paidAt) => RecordSuccess(b, i, o, paidAt, now)
    case CompensationCall(i, o, answer) => CompensationTask(b, i, o, answer, now)
    case CancelOwnCall(user) => CancelOwn(b, user, now)
    case CancelByOrganizerCall => CancelByOrganizer(b, now)
    case CancelByAdminCall => CancelByAdmin(b)
    case FailUnformedCall => FailUnformed(b, now)
    case StartCall => Ok(Start(b, now))
    case CompleteCall => Ok(Complete(b, now))
    case RegisterCaseCall(user, staff, periods) => RegisterCase(b, user, staff, periods)
    case BeginReviewCall(i, k) => BeginReview(b, i, k)
    case EscalateCaseCall(i, k) => EscalateCase(b, i, k)
    case DeclineCaseCall(i, k) => DeclineCase(b, i, k, now)
    case ApproveCall(i, k, principal, fee, authorised) => Approve(b, i, k, principal, fee, authorised, now)
    case RefundCall(i, ref, step, at) => RefundProgress(b, i, ref, step, if step == TakeUp then now else at)
    case EnsureSettlementCall(periods) => EnsureSettlement(b, periods)
    case AdvanceSettlementCall => AdvanceSettlement(b, now)
    case FreezeByAdminCall => FreezeByAdmin(b)
    case ReleaseByAdminCall => ReleaseByAdmin(b, now)
    case SettleByAdminCall => SettleByAdmin(b, now)
  }

  function Next(b: Book, c: Call, now: Time): Book {
    var r := Try(b, c, now);
    if r.Ok? then r.value else b
  }
}
