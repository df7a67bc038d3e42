/** Every call keeps `BookOk`. */
module ActivitySteps {
  import opened Wrappers
  import opened Totals
  import opened WalletAllocations
  import opened PaymentOrders
  import opened OrderInvariants
  import opened Participations
  import opened ParticipationInvariants
  import opened Settlements
  import opened Activities
  import opened ActivityInvariants

  // ----- hold expiry and sign-up -----

  predicate SweptRow(p: Participation, q: Participation, now: Time) {
    && ParticipationOk(q)
    && q.user == p.user
    && ActiveOf(q) == ActiveOf(p) && SeatOf(q) <= SeatOf(p) && MarginOf(q) == MarginOf(p)
    && (HasOpen(q) ==> HoldsSeat(q, now))
  }

  lemma {:induction false} SweptRows(ps: seq<Participation>, now: Time)
    requires RowsOk(ps)
    ensures forall i :: 0 <= i < |ps| ==> SweptRow(ps[i], ExpireRows(ps, now)[i], now)
  {
    hide ParticipationOk, SweptRow;
    if ps != [] {
      var n := |ps| - 1;
      assert RowsOk(ps[..n]);
      SweptRows(ps[..n], now);
      assert SweptRow(ps[n], ExpireDue(ps[n], now), now) by { OneSwept(ps[n], now); }
    }
  }

  lemma OneSwept(p: Participation, now: Time)
    requires ParticipationOk(p)
    ensures SweptRow(p, ExpireDue(p, now), now)
  {
    ExpireDueKeepsOk(p, now);
  }

  lemma {:induction false} SweptTotals(ps: seq<Participation>, qs: seq<Participation>, now: Time)
    requires |qs| == |ps| && forall i :: 0 <= i < |ps| ==> SweptRow(ps[i], qs[i], now)
    ensures Total(qs, ActiveOf) == Total(ps, ActiveOf)
    ensures Total(qs, SeatOf) <= Total(ps, SeatOf)
    ensures Total(qs, MarginOf) == Total(ps, MarginOf)
    ensures Total(qs, SeatOf) <= Total(qs, OccupiedBy(now))
  {
    hide ParticipationOk, MarginOf, HasOpen, HoldsSeat;
    if ps != [] {
      var n := |ps| - 1;
      SweptTotals(ps[..n], qs[..n], now);
      assert SweptRow(ps[n], qs[n], now);
      SweptSeat(ps[n], qs[n], now);
    }
  }

  lemma SweptSeat(p: Participation, q: Participation, now: Time)
    requires SweptRow(p, q, now)
    ensures SeatOf(q) <= OccupiedBy(now)(q)
  {
    hide ParticipationOk;
  }

  /** After the sweep every open order is within its hold, so the seats taken or
      reserved are among those the capacity check counts. */
  lemma SweepKeepsOk(b: Book, t: Time, now: Time)
    requires BookOk(b, t) && t <= now
    ensures BookOk(ExpireAll(b, now), now)
    ensures SeatCount(ExpireAll(b, now)) <= OccupiedCount(ExpireAll(b, now), now)
    ensures forall p :: p in ExpireAll(b, now).participations && HasOpen(p) ==> HoldsSeat(p, now)
  {
    LaterKeepsOk(b, t, now);
    SweptRows(b.participations, now);
    var qs := ExpireRows(b.participations, now);
    SweptTotals(b.participations, qs, now);
    SweptKeepsOk(b, now, qs);
  }

  lemma SweptKeepsOk(b: Book, now: Time, qs: seq<Participation>)
    requires BookOk(b, now)
    requires |qs| == |b.participations| && forall i :: 0 <= i < |qs| ==> SweptRow(b.participations[i], qs[i], now)
    requires Total(qs, ActiveOf) == ActiveCount(b) && Total(qs, SeatOf) <= SeatCount(b)
    requires Total(qs, MarginOf) == Total(b.participations, MarginOf)
    ensures BookOk(b.(participations := qs), now)
    ensures forall p :: p in qs && HasOpen(p) ==> HoldsSeat(p, now)
  {
    hide ParticipationOk, MarginOf, HasOpen, HoldsSeat, SeatOf, ActiveOf, Total, TermsOk;
    assert forall i {:trigger qs[i]} :: 0 <= i < |qs| ==> SweptRow(b.participations[i], qs[i], now);
    assert Vacated(b.participations) ==> Vacated(qs) by {
      forall q | q in qs
        ensures SeatOf(q) >= 0
      {
        SeatsNonNegative(q);
      }
    }
  }

  lemma SignUpKeepsOk(b: Book, t: Time, user: nat, eligible: bool, cityOpen: bool, timeout: nat, now: Time)
    requires BookOk(b, t) && t <= now && SignUp(b, user, eligible, cityOpen, timeout, now).Ok?
    ensures BookOk(SignUp(b, user, eligible, cityOpen, timeout, now).value, now)
  {
    hide BookOk, ExpireAll, FindUser;
    SweepKeepsOk(b, t, now);
    var swept := ExpireAll(b, now);
    assert swept.terms == b.terms && swept.status == b.status by { SweepFrame(b, now); }
    var found := FindUser(swept.participations, user);
    var b' := SignUp(b, user, eligible, cityOpen, timeout, now).value;
    if b' != swept {
      if found.Some? {
        NoOpenWithoutLive(swept, found.value, now);
        ReSignUpKeepsOk(swept, found.value, now + timeout, now);
      } else {
        FirstSignUpKeepsOk(swept, user, now + timeout, now);
      }
    }
  }

  lemma SweepFrame(b: Book, now: Time)
    ensures ExpireAll(b, now).terms == b.terms && ExpireAll(b, now).status == b.status
    ensures ExpireAll(b, now).settlement == b.settlement && ExpireAll(b, now).publish == b.publish
  {
  }

  lemma NoOpenWithoutLive(b: Book, i: nat, now: Time)
    requires BookOk(b, now) && i < |b.participations| && !HasLiveOrder(b.participations[i], now)
    requires forall p :: p in b.participations && HasOpen(p) ==> HoldsSeat(p, now)
    requires b.participations[i].status != Active
    ensures !HasOpen(b.participations[i])
  {
    var p := b.participations[i];
    hide OrderOk, KeysOk;
    assert ParticipationOk(p);
    assert HasOpen(p) ==> OpenOrder(p) == Some(|p.orders| - 1) && HoldsSeat(p, now);
  }

  lemma ReSignUpKeepsOk(b: Book, i: nat, expiresAt: Time, now: Time)
    requires BookOk(b, now) && i < |b.participations| && b.status in {Recruiting, Formed}
    requires SeatCount(b) < b.terms.capacity
    requires b.participations[i].status != Active && !HasOpen(b.participations[i])
    ensures BookOk(Put(b, i, SignUpAgain(b.participations[i], b.terms.principal, b.terms.fee, expiresAt)), now)
  {
    var p := b.participations[i];
    var q := SignUpAgain(p, b.terms.principal, b.terms.fee, expiresAt);
    SignUpAgainKeepsOk(p, b.terms.principal, b.terms.fee, expiresAt);
    assert SeatOf(p) == 0 && ActiveOf(p) == 0;
    hide ParticipationOk, MarginOf, SeatOf, ActiveOf, TermsOk, HasOpen;
    TotalUpdate(b.participations, i, q, SeatOf);
    TotalUpdate(b.participations, i, q, ActiveOf);
    TotalUpdate(b.participations, i, q, MarginOf);
  }

  lemma FirstSignUpKeepsOk(b: Book, user: nat, expiresAt: Time, now: Time)
    requires BookOk(b, now) && b.status in {Recruiting, Formed}
    requires SeatCount(b) < b.terms.capacity
    requires FindUser(b.participations, user).None?
    ensures BookOk(b.(participations := b.participations + [NewParticipation(user, b.terms.principal, b.terms.fee, expiresAt)]), now)
  {
    hide ParticipationOk, MarginOf, SeatOf, ActiveOf, TermsOk, FindUser, NewParticipation, RowsOk, UsersDistinct, Vacated, SettlementOk, Total;
    var q := NewParticipation(user, b.terms.principal, b.terms.fee, expiresAt);
    NewParticipationOk(user, b.terms.principal, b.terms.fee, expiresAt);
    NewUser(b.participations, user, q);
    var b' := b.(participations := b.participations + [q]);
    assert SettlementOk(b') by { NotYetSettled(b'); }
    TotalAppend(b.participations, q, SeatOf);
    TotalAppend(b.participations, q, ActiveOf);
  }

  lemma NotYetSettled(b: Book)
    requires b.settlement.None?
    ensures SettlementOk(b)
  {
  }

  lemma NewUser(ps: seq<Participation>, user: nat, q: Participation)
    requires FindUser(ps, user).None? && q.user == user && ParticipationOk(q)
    requires RowsOk(ps) && UsersDistinct(ps)
    ensures RowsOk(ps + [q]) && UsersDistinct(ps + [q])
  {
    hide ParticipationOk, FindUser;
  }

  lemma ExpireOrderKeepsOk(b: Book, t: Time, i: nat, o: nat, now: Time)
    requires BookOk(b, t) && t <= now && ExpireOrder(b, i, o, now).Ok?
    ensures BookOk(ExpireOrder(b, i, o, now).value, now)
  {
    LaterKeepsOk(b, t, now);
    var p := b.participations[i];
    var q := ExpireOne(p, o, now);
    assert ParticipationOk(p);
    if o == |p.orders| - 1 {
      ExpireOneKeepsOk(p, now);
    } else {
      assert q == p;
    }
    hide BookOk, ParticipationOk, ExpireOne;
    PutKeepsOk(b, now, i, q);
  }

  // ----- payment -----

  lemma RecordSuccessKeepsOk(b: Book, t: Time, i: nat, o: nat, paidAt: Time, now: Time)
    requires BookOk(b, t) && t <= now && i < |b.participations| && o < |b.participations[i].orders|
    ensures RecordSuccess(b, i, o, paidAt, now).Ok?
    ensures BookOk(RecordSuccess(b, i, o, paidAt, now).value, now)
  {
    LaterKeepsOk(b, t, now);
    var p := b.participations[i];
    assert ParticipationOk(p);
    hide ParticipationOk, ApplySuccess, FormationOk, TermsOk, UsersDistinct, RowsOk, LifecycleOk, SettlementOk;
    SuccessKeepsOk(p, o, paidAt);
    var s := ApplySuccess(p, o, paidAt).value;
    PutKeepsCore(b, now, i, s.participation);
    if s.changed && !s.late {
      SyncKeepsOk(Put(b, i, s.participation), now);
    } else {
      PutKeepsOk(b, now, i, s.participation);
    }
  }

  lemma OpenPaymentKeepsOk(b: Book, t: Time, user: nat, available: nat, externalOnly: bool, now: Time)
    requires BookOk(b, t) && t <= now && OpenPayment(b, user, available, externalOnly, now).Ok?
    ensures BookOk(OpenPayment(b, user, available, externalOnly, now).value, now)
  {
    LaterKeepsOk(b, t, now);
    var i := FindUser(b.participations, user).value;
    var p := b.participations[i];
    var n := |p.orders| - 1;
    assert ParticipationOk(p);
    var order := OpenSession(p.orders[n], available, externalOnly, now).value;
    var q := p.(orders := p.orders[n := order]);
    SessionKeepsOk(p, available, externalOnly, now, q);
    hide ParticipationOk, OpenSession, BookOk, FindUser;
    PutKeepsOk(b, now, i, q);
    var b' := Put(b, i, q);
    if order.allocation.Some? && order.allocation.value.external == 0 {
      RecordSuccessKeepsOk(b', now, i, n, now, now);
    }
  }

  lemma SessionKeepsOk(p: Participation, available: nat, externalOnly: bool, now: Time, q: Participation)
    requires ParticipationOk(p)
    requires var r := OpenSession(Last(p), available, externalOnly, now);
      r.Ok? && q == p.(orders := p.orders[|p.orders| - 1 := r.value])
    ensures ParticipationOk(q) && SeatOf(q) == SeatOf(p) && ActiveOf(q) == ActiveOf(p) && MarginOf(q) == MarginOf(p)
  {
    var o := OpenSession(Last(p), available, externalOnly, now).value;
    assert OrderOk(Last(p));
    OpenSessionKeepsOk(Last(p), available, externalOnly, now);
    assert o.status == Last(p).status && o.refunds == Last(p).refunds && o.expiresAt == Last(p).expiresAt;
    assert OrderMargin(o) == OrderMargin(Last(p));
    hide OrderOk, OpenSession, OrderMargin;
    ReplaceKeepsOk(p, |p.orders| - 1, o, q);
  }

  lemma CompensationKeepsOk(b: Book, t: Time, i: nat, o: nat, answer: Option<Time>, now: Time)
    requires BookOk(b, t) && t <= now && CompensationTask(b, i, o, answer, now).Ok?
    ensures BookOk(CompensationTask(b, i, o, answer, now).value, now)
  {
    LaterKeepsOk(b, t, now);
    var p := b.participations[i];
    assert ParticipationOk(p);
    assert p.orders[o].compensation;
    hide BookOk, ParticipationOk, Compensate;
    CompensateKeepsOk(p, o, answer);
    PutKeepsOk(b, now, i, Compensate(p, o, answer).value);
  }

  // ----- cancellation -----

  lemma CancelOwnKeepsOk(b: Book, t: Time, user: nat, now: Time)
    requires BookOk(b, t) && t <= now && CancelOwn(b, user, now).Ok?
    ensures BookOk(CancelOwn(b, user, now).value, now)
  {
    LaterKeepsOk(b, t, now);
    var i := FindUser(b.participations, user).value;
    var p := b.participations[i];
    assert ParticipationOk(p);
    var q := SelfCancel(p, b.terms.rules, b.terms.startsAt, now).value;
    SelfCancelKeepsOk(p, b.terms.rules, b.terms.startsAt, now);
    SeatKeptOnceOver(b, now, p);
    assert p.status != Active ==> ActiveOf(q) == ActiveOf(p);
    hide ParticipationOk, SelfCancel, FindUser, FormationOk, TermsOk, UsersDistinct, RowsOk, LifecycleOk, SettlementOk;
    PutKeepsCore(b, now, i, q);
    if p.status == Active {
      SyncKeepsOk(Put(b, i, q), now);
    } else {
      PutKeepsOk(b, now, i, q);
    }
  }

  // Once an activity is settled it has started, and a seat can no longer be given up.
  lemma SeatKeptOnceOver(b: Book, now: Time, p: Participation)
    requires CoreOk(b, now)
    ensures p.status == Active && IsSettled(b) ==> SelfCancel(p, b.terms.rules, b.terms.startsAt, now).Refused?
  {
    hide RowsOk, UsersDistinct, SettlementOk, Vacated;
  }

  lemma {:induction false} CancelRowsOk(ps: seq<Participation>, kind: MassKind)
    requires RowsOk(ps)
    ensures CancelRows(ps, kind).Ok?
    ensures var qs := CancelRows(ps, kind).value;
      |qs| == |ps| && forall i :: 0 <= i < |ps| ==> MassCancel(ps[i], kind) == Ok(qs[i])
  {
    hide ParticipationOk, MassCancel;
    if ps != [] {
      var n := |ps| - 1;
      assert RowsOk(ps[..n]);
      CancelRowsOk(ps[..n], kind);
      assert MassCancel(ps[n], kind).Ok? by {
        assert ParticipationOk(ps[n]);
        MassCancelKeepsOk(ps[n], kind);
      }
    }
  }

  lemma CancelledRows(ps: seq<Participation>, kind: MassKind)
    requires RowsOk(ps)
    ensures CancelRows(ps, kind).Ok?
    ensures var qs := CancelRows(ps, kind).value;
      && |qs| == |ps| && RowsOk(qs) && Vacated(qs)
      && (forall i :: 0 <= i < |ps| ==> MassCancel(ps[i], kind) == Ok(qs[i]) && qs[i].user == ps[i].user)
      && Total(qs, SeatOf) == 0 && Total(qs, ActiveOf) == 0
  {
    hide ParticipationOk, MassCancel, SeatOf, ActiveOf;
    CancelRowsOk(ps, kind);
    var qs := CancelRows(ps, kind).value;
    forall i | 0 <= i < |qs|
      ensures ParticipationOk(qs[i]) && SeatOf(qs[i]) == 0 && ActiveOf(qs[i]) == 0 && qs[i].user == ps[i].user
    {
      assert ParticipationOk(ps[i]);
      MassCancelKeepsOk(ps[i], kind);
      SeatsNonNegative(qs[i]);
    }
    TotalIsZero(qs, SeatOf);
    TotalIsZero(qs, ActiveOf);
  }

  lemma RefundPublishKeepsOk(o: PublishOrder, principal: int, fee: int)
    requires PublishOk(o) && 0 <= principal <= o.principal && 0 <= fee <= o.fee
    ensures RefundPublish(o, principal, fee).Ok?
    ensures PublishOk(RefundPublish(o, principal, fee).value)
    ensures RefundPublish(o, principal, fee).value.principal == o.principal
  {
    hide WalletTarget, Max;
  }

  /** Cancelling a whole activity is never blocked, and leaves nobody on it. */
  lemma CancelEverythingKeepsOk(b: Book, t: Time, kind: MassKind, principal: int, fee: int, status: ActivityStatus)
    requires BookOk(b, t) && b.status in {Recruiting, Formed} && status in {CalledOff, NotFormed}
    requires 0 <= principal <= b.publish.principal && 0 <= fee <= b.publish.fee
    ensures CancelEverything(b, kind, principal, fee, status).Ok?
    ensures var b' := CancelEverything(b, kind, principal, fee, status).value;
      && BookOk(b', t) && b'.status == status
      && |b'.participations| == |b.participations|
      && (forall i :: 0 <= i < |b.participations| ==> MassCancel(b.participations[i], kind) == Ok(b'.participations[i]))
  {
    hide ParticipationOk, MassCancel, SeatOf, ActiveOf, Total, TermsOk, RefundPublish;
    CancelledRows(b.participations, kind);
    RefundPublishKeepsOk(b.publish, principal, fee);
    hide PublishOk, CancelRows, Vacated;
    var b' := CancelEverything(b, kind, principal, fee, status).value;
    assert TermsOk(b.terms);
    assert ActiveCount(b') == 0 && SeatCount(b') == 0;
  }

  lemma PercentWithin(amount: nat, percent: int)
    requires 0 <= percent <= 100
    ensures 0 <= RoundPercent(amount, percent) <= amount
  {
    ProductMonotone(0, percent, amount);
    ProductMonotone(percent, 100, amount);
    assert amount * percent + 50 <= amount * 100 + 50;
    assert amount * percent == percent * amount;
  }

  lemma CancelByOrganizerKeepsOk(b: Book, t: Time, now: Time)
    requires BookOk(b, t) && t <= now && CancelByOrganizer(b, now).Ok?
    ensures BookOk(CancelByOrganizer(b, now).value, now) && CancelByOrganizer(b, now).value.status == CalledOff
  {
    LaterKeepsOk(b, t, now);
    hide BookOk, CancelEverything, RoundPercent;
    PercentWithin(b.publish.principal, 70);
    CancelEverythingKeepsOk(b, now, OrganizerCancellation, b.publish.principal, b.publish.fee, CalledOff);
    CancelEverythingKeepsOk(b, now, OrganizerCancellation, b.publish.principal, 0, CalledOff);
    CancelEverythingKeepsOk(b, now, OrganizerCancellation, RoundPercent(b.publish.principal, 70), 0, CalledOff);
  }

  lemma CancelByAdminKeepsOk(b: Book, t: Time)
    requires BookOk(b, t) && CancelByAdmin(b).Ok?
    ensures BookOk(CancelByAdmin(b).value, t) && CancelByAdmin(b).value.status == CalledOff
  {
    hide BookOk, CancelEverything;
    CancelEverythingKeepsOk(b, t, AdminCancellation, b.publish.principal, b.publish.fee, CalledOff);
  }

  lemma FailUnformedKeepsOk(b: Book, t: Time, now: Time)
    requires BookOk(b, t) && t <= now && FailUnformed(b, now).Ok?
    ensures BookOk(FailUnformed(b, now).value, now)
    ensures FailUnformed(b, now).value.status == b.status || FailUnformed(b, now).value.status == NotFormed
  {
    LaterKeepsOk(b, t, now);
    assert b.status == Recruiting ==> ActiveCount(b) < b.terms.minParticipants;
    hide BookOk, CancelEverything;
    if b.status == Recruiting {
      CancelEverythingKeepsOk(b, now, FailedToForm, b.publish.principal, b.publish.fee, NotFormed);
    }
  }

  lemma LifecycleKeepsOk(b: Book, t: Time, now: Time)
    requires BookOk(b, t) && t <= now
    ensures BookOk(Start(b, now), now) && BookOk(Complete(b, now), now)
  {
    LaterKeepsOk(b, t, now);
    hide RowsOk, UsersDistinct, Total, Vacated;
  }

  lemma ReviewActivityKeepsOk(b: Book, t: Time, guards: bool, now: Time)
    requires BookOk(b, t) && t <= now
    ensures ReviewApprove(b, guards, now).Ok? ==> BookOk(ReviewApprove(b, guards, now).value, now)
    ensures ReviewReject(b).Ok? ==> BookOk(ReviewReject(b).value, now)
  {
    LaterKeepsOk(b, t, now);
    if b.status == UnderReview {
      RefundPublishKeepsOk(b.publish, b.publish.principal, b.publish.fee);
    }
    hide UsersDistinct, RefundPublish, PublishOk;
  }

  // ----- after-sales -----

  lemma RegisterCaseKeepsOk(b: Book, t: Time, user: nat, staff: Option<(nat, nat)>, periods: Periods)
    requires BookOk(b, t) && RegisterCase(b, user, staff, periods).Ok?
    ensures BookOk(RegisterCase(b, user, staff, periods).value, t)
  {
    var i := FindUser(b.participations, user).value;
    var p := b.participations[i];
    assert ParticipationOk(p);
    hide BookOk, ParticipationOk, FindUser, CreateCase, HasOpenCase, FreezeForAfterSales;
    if !HasOpenCase(p) {
      CreateCaseKeepsOk(p, staff);
      var q := CreateCase(p, staff).value;
      PutKeepsOk(b, t, i, q);
      FreezeKeepsOk(Put(b, i, q), t, periods);
    }
  }

  lemma ReviewCallKeepsOk(b: Book, t: Time, i: nat, c: nat, action: Review)
    requires BookOk(b, t) && CaseExists(b, i, c) && ReviewCase(b.participations[i], c, action).Ok?
    ensures BookOk(Put(b, i, ReviewCase(b.participations[i], c, action).value), t)
  {
    var p := b.participations[i];
    assert ParticipationOk(p);
    hide BookOk, ParticipationOk, ReviewCase;
    ReviewKeepsOk(p, c, action);
    PutKeepsOk(b, t, i, ReviewCase(p, c, action).value);
  }

  lemma DeclineKeepsOk(b: Book, t: Time, i: nat, c: nat, now: Time)
    requires BookOk(b, t) && t <= now && DeclineCase(b, i, c, now).Ok?
    ensures BookOk(DeclineCase(b, i, c, now).value, now)
  {
    LaterKeepsOk(b, t, now);
    hide BookOk, RejectCase, ReleaseAfterSales;
    ReviewCallKeepsOk(b, now, i, c, ReviewDecline);
    ReleaseKeepsOk(Put(b, i, RejectCase(b.participations[i], c).value), now, now);
  }

  lemma ApproveCallKeepsOk(b: Book, t: Time, i: nat, c: nat, principal: Option<int>, fee: Option<int>, authorised: bool, now: Time)
    requires BookOk(b, t) && t <= now && Approve(b, i, c, principal, fee, authorised, now).Ok?
    ensures BookOk(Approve(b, i, c, principal, fee, authorised, now).value, now)
  {
    LaterKeepsOk(b, t, now);
    var p := b.participations[i];
    assert ParticipationOk(p);
    var q := ApproveCase(p, c, principal, fee, authorised).value;
    ApproveKeepsOk(p, c, principal, fee, authorised);
    ApproveActive(p, c, principal, fee, authorised);
    hide ParticipationOk, ApproveCase, FormationOk, TermsOk, UsersDistinct, RowsOk, LifecycleOk, SettlementOk, ReleaseAfterSales;
    var b' := Put(b, i, q);
    PutKeepsCore(b, now, i, q);
    if p.status == Active && authorised {
      SyncKeepsOk(b', now);
      ReleaseKeepsOk(Sync(b', now), now, now);
    } else {
      PutKeepsOk(b, now, i, q);
      ReleaseKeepsOk(b', now, now);
    }
  }

  lemma ApproveActive(p: Participation, c: nat, principal: Option<int>, fee: Option<int>, authorised: bool)
    requires c < |p.cases| && ApproveCase(p, c, principal, fee, authorised).Ok?
    ensures p.status != Active || !authorised ==> ActiveOf(ApproveCase(p, c, principal, fee, authorised).value) == ActiveOf(p)
  {
    hide Total, FindKey, AddRefund, Newest;
  }

  // ----- refunds -----

  lemma RefundProgressKeepsOk(b: Book, t: Time, i: nat, ref: RefundRef, step: Progress, at: Time)
    requires BookOk(b, t) && RefundProgress(b, i, ref, step, at).Ok?
    ensures BookOk(RefundProgress(b, i, ref, step, at).value, t)
  {
    var p := b.participations[i];
    assert ParticipationOk(p);
    hide BookOk, ParticipationOk, ReleaseAfterSales, Advance;
    AdvanceKeepsOk(p, ref, step);
    var q := Participations.Advance(p, ref, step).value;
    PutKeepsOk(b, t, i, q);
    ReleaseKeepsOk(Put(b, i, q), t, at);
  }

  // ----- settlement by the back office -----

  lemma AdminSettlementKeepsOk(b: Book, t: Time, now: Time)
    requires BookOk(b, t)
    ensures FreezeByAdmin(b).Ok? ==> BookOk(FreezeByAdmin(b).value, t)
    ensures ReleaseByAdmin(b, now).Ok? ==> BookOk(ReleaseByAdmin(b, now).value, t)
    ensures SettleByAdmin(b, now).Ok? ==> BookOk(SettleByAdmin(b, now).value, t)
  {
    hide RowsOk, UsersDistinct, TermsOk, Vacated, Total, FormationOk, AdvanceSettlement;
    if b.settlement.Some? {
      assert SettlementOk(b) && LifecycleOk(b, t);
      if FreezeByAdmin(b).Ok? {
        FrozenKeepsOk(b, t, FreezeByAdmin(b).value);
      }
      if ReleaseByAdmin(b, now).Ok? {
        var thawed := b.(settlement := Some(Thawed(b.settlement.value, now)));
        SetSettlementKeepsOk(b, t, Thawed(b.settlement.value, now));
        AdvanceKeepsBook(thawed, t, now);
      }
    }
    if SettleByAdmin(b, now).Ok? {
      AdvanceKeepsBook(b, t, now);
    }
  }

  // ----- every call -----

  lemma SuccessExists(b: Book, i: nat, o: nat, paidAt: Time, now: Time)
    ensures RecordSuccess(b, i, o, paidAt, now).Ok? ==> i < |b.participations| && o < |b.participations[i].orders|
  {
  }

  // Calls that take, pay for or give up seats, and the activity's own course.
  predicate IsSeatCall(c: Call) {
    || c.ReviewApproveCall? || c.ReviewRejectCall? || c.SignUpCall? || c.ExpireOrderCall? || c.ExpireAllCall?
    || c.OpenPaymentCall? || c.ChannelSuccessCall? || c.CompensationCall? || c.CancelOwnCall?
    || c.CancelByOrganizerCall? || c.CancelByAdminCall? || c.FailUnformedCall? || c.StartCall? || c.CompleteCall?
  }

  lemma SeatCallKeepsOk(b: Book, t: Time, c: Call, now: Time)
    requires BookOk(b, t) && t <= now && IsSeatCall(c) && Try(b, c, now).Ok?
    ensures BookOk(Try(b, c, now).value, now)
  {
    LaterKeepsOk(b, t, now);
    hide BookOk, SignUp, ExpireOrder, ExpireAll, OpenPayment, RecordSuccess, CompensationTask, CancelOwn, CancelByOrganizer,
      CancelByAdmin, FailUnformed, Start, Complete, ReviewApprove, ReviewReject;
    match c
    case ReviewApproveCall(guards) => ReviewActivityKeepsOk(b, t, guards, now);
    case ReviewRejectCall => ReviewActivityKeepsOk(b, t, true, now);
    case SignUpCall(user, eligible, cityOpen, timeout) => SignUpKeepsOk(b, t, user, eligible, cityOpen, timeout, now);
    case ExpireOrderCall(i, o) => ExpireOrderKeepsOk(b, t, i, o, now);
    case ExpireAllCall => SweepKeepsOk(b, t, now);
    case OpenPaymentCall(user, available, externalOnly) => OpenPaymentKeepsOk(b, t, user, available, externalOnly, now);
    case ChannelSuccessCall(i, o, paidAt) =>
      SuccessExists(b, i, o, paidAt, now);
      RecordSuccessKeepsOk(b, t, i, o, paidAt, now);
    case CompensationCall(i, o, answer) => CompensationKeepsOk(b, t, i, o, answer, now);
    case CancelOwnCall(user) => CancelOwnKeepsOk(b, t, user, now);
    case CancelByOrganizerCall => CancelByOrganizerKeepsOk(b, t, now);
    case CancelByAdminCall => CancelByAdminKeepsOk(b, now);
    case FailUnformedCall => FailUnformedKeepsOk(b, t, now);
    case StartCall => LifecycleKeepsOk(b, t, now);
    case CompleteCall => LifecycleKeepsOk(b, t, now);
  }

  lemma MoneyCallKeepsOk(b: Book, t: Time, c: Call, now: Time)
    requires BookOk(b, t) && t <= now && !IsSeatCall(c) && Try(b, c, now).Ok?
    ensures BookOk(Try(b, c, now).value, now)
  {
    LaterKeepsOk(b, t, now);
    hide BookOk, RegisterCase, DeclineCase, Approve, RefundProgress, EnsureSettlement, AdvanceSettlement, FreezeByAdmin,
      ReleaseByAdmin, SettleByAdmin, StartReview, Escalate, RefExists;
    match c
    case RegisterCaseCall(user, staff, periods) => RegisterCaseKeepsOk(b, now, user, staff, periods);
    case BeginReviewCall(i, k) => ReviewCallKeepsOk(b, now, i, k, ReviewStart);
    case EscalateCaseCall(i, k) => ReviewCallKeepsOk(b, now, i, k, ReviewEscalate);
    case DeclineCaseCall(i, k) => DeclineKeepsOk(b, t, i, k, now);
    case ApproveCall(i, k, principal, fee, authorised) => ApproveCallKeepsOk(b, t, i, k, principal, fee, authorised, now);
    case RefundCall(i, ref, step, at) => RefundProgressKeepsOk(b, now, i, ref, step, if step == TakeUp then now else at);
    case EnsureSettlementCall(periods) => EnsureKeepsOk(b, now, periods);
    case AdvanceSettlementCall => AdvanceKeepsBook(b, now, now);
    case FreezeByAdminCall => AdminSettlementKeepsOk(b, now, now);
    case ReleaseByAdminCall => AdminSettlementKeepsOk(b, now, now);
    case SettleByAdminCall => AdminSettlementKeepsOk(b, now, now);
  }

  /** Whatever call is made, and whether or not it is refused. */
  lemma NextKeepsOk(b: Book, t: Time, c: Call, now: Time)
    requires BookOk(b, t) && t <= now
    ensures BookOk(Next(b, c, now), now)
  {
    hide BookOk, Try, IsSeatCall;
    LaterKeepsBook(b, t, now);
    if Try(b, c, now).Ok? {
      if IsSeatCall(c) {
        SeatCallKeepsOk(b, t, c, now);
      } else {
        MoneyCallKeepsOk(b, t, c, now);
      }
    }
  }

  lemma LaterKeepsBook(b: Book, t: Time, now: Time)
    requires BookOk(b, t) && t <= now
    ensures BookOk(b, now)
  {
    LaterKeepsOk(b, t, now);
  }
}
