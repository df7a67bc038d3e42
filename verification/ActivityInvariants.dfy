/** What holds of the book of an activity between any two calls, and the proof that
    every call keeps it. */
module ActivityInvariants {
  import opened Wrappers
  import opened Totals
  import opened WalletAllocations
  import opened PaymentOrders
  import opened Participations
  import opened ParticipationInvariants
  import opened Settlements
  import opened SettlementProofs
  import opened Activities

  predicate TermsOk(t: Terms) {
    && t.formationDeadline < t.startsAt < t.endsAt
    && 1 <= t.minParticipants <= t.capacity
    && t.principal >= 1
  }

  predicate RowsOk(ps: seq<Participation>) {
    forall p :: p in ps ==> ParticipationOk(p)
  }

  predicate UsersDistinct(ps: seq<Participation>) {
    forall i, j :: 0 <= i < j < |ps| ==> ps[i].user != ps[j].user
  }

  // Principal paid in time, by everyone, that no refund in any status has reserved.
  function Margin(b: Book): int {
    Total(b.participations, MarginOf) + b.publish.principal - PublishPrincipalRefunded(b.publish)
  }

  predicate Vacated(ps: seq<Participation>) {
    forall p :: p in ps ==> SeatOf(p) == 0
  }

  predicate LifecycleOk(b: Book, t: Time) {
    && (b.status in {UnderReview, Rejected} ==> b.participations == [])
    && (b.status in {CalledOff, NotFormed} ==> Vacated(b.participations))
    && (b.status == InProgress ==> b.terms.startsAt <= t)
    && (b.status == Completed ==> b.terms.endsAt <= t)
    && (b.settlement.Some? ==> b.status == Completed)
  }

  // The risk freeze is dated from the end of the confirmation period.
  predicate StageDated(s: Settlement) {
    && (s.status == Confirming ==> s.riskFrozenAt.None?)
    && (s.status in {RiskFrozen, Settled} ==> s.riskFrozenAt == Some(s.confirmationDeadline))
  }

  predicate SettlementOk(b: Book) {
    b.settlement.Some? ==>
      var s := b.settlement.value;
      && (s.status == DisputeFrozen <==> s.source != NoDispute)
      && s.confirmationDeadline <= s.freezeUntil
      && StageDated(s)
      && (s.status == Settled ==>
            && s.amounts.settlement <= Margin(b)
            && s.settledAt.Some? && s.freezeUntil <= s.settledAt.value)
  }

  // t is the time of the last call.
  predicate CoreOk(b: Book, t: Time) {
    && TermsOk(b.terms)
    && RowsOk(b.participations)
    && UsersDistinct(b.participations)
    && SeatCount(b) <= b.terms.capacity
    && LifecycleOk(b, t)
    && PublishOk(b.publish)
    && SettlementOk(b)
  }

  predicate FormationOk(b: Book, t: Time) {
    && (b.status == Recruiting ==> ActiveCount(b) < b.terms.minParticipants)
    && (b.status == Formed && t < b.terms.formationDeadline ==> ActiveCount(b) >= b.terms.minParticipants)
  }

  predicate BookOk(b: Book, t: Time) {
    CoreOk(b, t) && FormationOk(b, t)
  }

  lemma RowOf(b: Book, t: Time, i: nat)
    requires BookOk(b, t) && i < |b.participations|
    ensures ParticipationOk(b.participations[i])
  {
    hide ParticipationOk, FormationOk, LifecycleOk, SettlementOk, UsersDistinct, TermsOk;
  }

  lemma LaterKeepsOk(b: Book, t: Time, now: Time)
    requires t <= now
    ensures CoreOk(b, t) ==> CoreOk(b, now)
    ensures FormationOk(b, t) ==> FormationOk(b, now)
  {
    hide RowsOk, UsersDistinct, SettlementOk, TermsOk, Vacated;
  }

  // ----- changing one row -----

  lemma PutKeepsCore(b: Book, t: Time, i: nat, q: Participation)
    requires CoreOk(b, t) && i < |b.participations|
    requires ParticipationOk(q) && q.user == b.participations[i].user
    requires SeatOf(q) <= SeatOf(b.participations[i])
    requires IsSettled(b) ==> MarginOf(q) >= MarginOf(b.participations[i])
    ensures CoreOk(Put(b, i, q), t)
    ensures ActiveCount(Put(b, i, q)) == ActiveCount(b) - ActiveOf(b.participations[i]) + ActiveOf(q)
  {
    hide ParticipationOk, TermsOk, MarginOf, SeatOf, ActiveOf;
    TotalUpdate(b.participations, i, q, SeatOf);
    TotalUpdate(b.participations, i, q, ActiveOf);
    TotalUpdate(b.participations, i, q, MarginOf);
    assert Vacated(b.participations) ==> Vacated(Put(b, i, q).participations) by {
      SeatsNonNegative(q);
      assert b.participations[i] in b.participations;
    }
  }

  lemma SeatsNonNegative(p: Participation)
    ensures 0 <= ActiveOf(p) <= SeatOf(p) <= 1
  {
  }

  lemma PutKeepsOk(b: Book, t: Time, i: nat, q: Participation)
    requires BookOk(b, t) && i < |b.participations|
    requires ParticipationOk(q) && q.user == b.participations[i].user
    requires SeatOf(q) <= SeatOf(b.participations[i]) && ActiveOf(q) == ActiveOf(b.participations[i])
    requires IsSettled(b) ==> MarginOf(q) >= MarginOf(b.participations[i])
    ensures BookOk(Put(b, i, q), t)
  {
    hide ParticipationOk, CoreOk, MarginOf, SeatOf, ActiveOf;
    PutKeepsCore(b, t, i, q);
  }

  lemma SyncKeepsOk(b: Book, now: Time)
    requires CoreOk(b, now)
    ensures BookOk(Sync(b, now), now)
    ensures b.settlement.Some? ==> Sync(b, now) == b
    ensures Sync(b, now).participations == b.participations && Sync(b, now).settlement == b.settlement
  {
    hide RowsOk, UsersDistinct, TermsOk, Vacated, Total;
  }

  // ----- changing the settlement alone -----

  lemma SetSettlementKeepsOk(b: Book, t: Time, s: Settlement)
    requires BookOk(b, t) && b.status == Completed
    requires s.status == DisputeFrozen <==> s.source != NoDispute
    requires s.confirmationDeadline <= s.freezeUntil && StageDated(s)
    requires s.status == Settled ==> s.amounts.settlement <= Margin(b) && s.settledAt.Some? && s.freezeUntil <= s.settledAt.value
    ensures BookOk(b.(settlement := Some(s)), t)
  {
    hide RowsOk, UsersDistinct, TermsOk, Vacated, Total;
    assert Margin(b.(settlement := Some(s))) == Margin(b);
  }

  lemma ReleaseKeepsOk(b: Book, t: Time, now: Time)
    requires BookOk(b, t)
    ensures BookOk(ReleaseAfterSales(b, now), t)
    ensures ReleaseAfterSales(b, now).participations == b.participations && ReleaseAfterSales(b, now).publish == b.publish
    ensures IsSettled(ReleaseAfterSales(b, now)) <==> IsSettled(b)
  {
    hide RowsOk, UsersDistinct, TermsOk, Vacated, Total, Calculate, FormationOk;
    assert SettlementOk(b);
    var b' := ReleaseAfterSales(b, now);
    if b' != b {
      SetSettlementKeepsOk(b, t, b'.settlement.value);
    }
  }

  lemma EnsureKeepsOk(b: Book, t: Time, periods: Periods)
    requires BookOk(b, t) && EnsureSettlement(b, periods).Ok?
    ensures BookOk(EnsureSettlement(b, periods).value, t)
    ensures EnsureSettlement(b, periods).value.participations == b.participations
  {
    hide RowsOk, UsersDistinct, TermsOk, Vacated, Total, Calculate, FormationOk;
    assert SettlementOk(b);
    var b' := EnsureSettlement(b, periods).value;
    if b' != b {
      SetSettlementKeepsOk(b, t, b'.settlement.value);
    }
  }

  lemma FreezeKeepsOk(b: Book, t: Time, periods: Periods)
    requires BookOk(b, t) && FreezeForAfterSales(b, periods).Ok?
    ensures BookOk(FreezeForAfterSales(b, periods).value, t)
    ensures FreezeForAfterSales(b, periods).value.participations == b.participations
  {
    if b.settlement.None? && b.status == Completed {
      EnsureKeepsOk(b, t, periods);
    }
    var b1 := if b.settlement.None? && b.status == Completed then EnsureSettlement(b, periods).value else b;
    assert BookOk(b1, t);
    FrozenKeepsOk(b1, t, FreezeForAfterSales(b, periods).value);
  }

  lemma FrozenKeepsOk(b: Book, t: Time, b': Book)
    requires BookOk(b, t)
    requires
      || b' == b
      || (b.settlement.Some? && b'.settlement.Some? && b'.settlement.value.source != NoDispute
          && b' == b.(settlement := Some(b.settlement.value.(status := DisputeFrozen, source := b'.settlement.value.source))))
    ensures BookOk(b', t)
  {
    hide RowsOk, UsersDistinct, TermsOk, Vacated, Total, Calculate, FormationOk;
    assert SettlementOk(b) && LifecycleOk(b, t);
    if b' != b {
      SetSettlementKeepsOk(b, t, b'.settlement.value);
    }
  }

  lemma NoOpenCaseAnywhere(b: Book)
    requires !AnyOpenCase(b)
    ensures forall p :: p in b.participations ==> !HasOpenCase(p)
  {
  }

  lemma PayoutCovered(b: Book, t: Time)
    requires CoreOk(b, t) && !AnyOpenCase(b)
    ensures Calculate(b.publish, b.participations).settlement <= Margin(b)
  {
    hide ParticipationOk, HasOpenCase, Calculate, UsersDistinct, TermsOk, Vacated, Total;
    NoOpenCaseAnywhere(b);
    PayoutIsCovered(b.publish, b.participations);
  }

  lemma AdvanceKeepsBook(b: Book, t: Time, now: Time)
    requires BookOk(b, t) && AdvanceSettlement(b, now).Ok?
    ensures BookOk(AdvanceSettlement(b, now).value, t)
    ensures AdvanceSettlement(b, now).value.participations == b.participations
  {
    hide RowsOk, UsersDistinct, TermsOk, Vacated, Total, Calculate, FormationOk;
    var s := b.settlement.value;
    if s.status == Settled {
    } else if AnyOpenCase(b) || s.source == AdminDispute {
      FrozenKeepsOk(b, t, AdvanceSettlement(b, now).value);
    } else {
      ReleaseKeepsOk(b, t, now);
      PayoutCovered(b, t);
      var b' := ReleaseAfterSales(b, now);
      assert SettlementOk(b') && SettlementOk(b) && LifecycleOk(b, t);
      SetSettlementKeepsOk(b', t, AdvanceSettlement(b, now).value.settlement.value);
    }
  }
}
