/** What the calls about seats do, said from the rows themselves: who is let in and on
    what terms, whose hold ends, who leaves and how, and when the activity is formed. */
module SeatOutcomes {
  import opened Wrappers
  import opened Totals
  import opened WalletAllocations
  import opened PaymentOrders
  import opened OrderInvariants
  import opened OrderMoves
  import opened Participations
  import opened ParticipationInvariants
  import opened ParticipationOutcomes
  import opened Settlements
  import opened SettlementProofs
  import opened Activities
  import opened ActivityInvariants
  import opened ActivitySteps
  import opened ActivityMoves
  import opened ActivityHistory
  import opened ActivityRuns

  // ----- hold expiry -----

  // An open order closed: its hold is let go and the compensation job is queued.
  predicate Lapsed(o: PaymentOrder, q: PaymentOrder) {
    && q == o.(status := PaymentOrders.Closed, compensation := true, allocation := q.allocation)
    && (o.allocation.None? ==> q.allocation.None?)
    && (o.allocation.Some? ==> q.allocation == Some(o.allocation.value.(status := Released, walletReleased := true)))
  }

  // Only an open order whose hold is over is closed, and its participant expires.
  predicate Swept(p: Participation, q: Participation, now: Time) {
    if p.orders != [] && Last(p).status == PaymentOrders.PendingPayment && Last(p).expiresAt <= now then
      && |q.orders| == |p.orders| && q.orders == p.orders[|p.orders| - 1 := q.orders[|p.orders| - 1]]
      && Lapsed(Last(p), q.orders[|p.orders| - 1])
      && q == p.(orders := q.orders, status := Expired, holdUntil := None)
    else q == p
  }

  lemma OneOrderSwept(p: Participation, o: nat, now: Time)
    requires ParticipationOk(p) && o < |p.orders|
    ensures if o == |p.orders| - 1 then Swept(p, ExpireOne(p, o, now), now) else ExpireOne(p, o, now) == p
  {
    assert OrderOk(Last(p));
    hide KeysOk, ReservationOk, RoutesOk, ReceiptsOk, LateOk, ShapeOk, SplitOk;
  }

  lemma RowIsSwept(p: Participation, now: Time)
    requires ParticipationOk(p)
    ensures Swept(p, ExpireDue(p, now), now)
  {
    SweepIsLast(p, |p.orders|, now);
    OneOrderSwept(p, |p.orders| - 1, now);
    hide ParticipationOk, ExpireOne, Lapsed;
  }

  predicate RowsSwept(ps: seq<Participation>, qs: seq<Participation>, now: Time) {
    |qs| == |ps| && forall i :: 0 <= i < |ps| ==> Swept(ps[i], qs[i], now)
  }

  /** The sweep closes exactly the open orders whose hold is over, and touches nothing else. */
  lemma {:induction false} SweepClosesTheDue(ps: seq<Participation>, now: Time)
    requires RowsOk(ps)
    ensures RowsSwept(ps, ExpireRows(ps, now), now)
  {
    hide Swept;
    if ps != [] {
      var n := |ps| - 1;
      assert RowsOk(ps[..n]);
      SweepClosesTheDue(ps[..n], now);
      RowIsSwept(ps[n], now);
    }
  }

  /** The job for a single order does the same for that order alone. */
  lemma OrderJobClosesTheDue(b: Book, t: Time, i: nat, o: nat, now: Time)
    requires BookOk(b, t) && i < |b.participations| && o < |b.participations[i].orders|
    ensures var p, b' := b.participations[i], Next(b, ExpireOrderCall(i, o), now);
      && p.orders != []
      && b' == b.(participations := b.participations[i := b'.participations[i]])
      && if o == |p.orders| - 1 then Swept(p, b'.participations[i], now) else b'.participations[i] == p
  {
    RowOf(b, t, i);
    OneOrderSwept(b.participations[i], o, now);
    hide BookOk, ExpireOne, Swept;
  }

  // ----- sign-up -----

  // Who has a seat or is within the time to pay for one.
  function Occupants(ps: seq<Participation>, now: Time): set<nat> {
    set i: nat | i < |ps| && (ps[i].status == Active || (ps[i].status == Awaiting && ps[i].holdUntil.Some? && now < ps[i].holdUntil.value))
  }

  lemma {:induction false} OccupiedCounts(ps: seq<Participation>, now: Time)
    ensures Total(ps, OccupiedBy(now)) == |Occupants(ps, now)|
  {
    if ps == [] {
      assert Occupants(ps, now) == {};
    } else {
      OccupiedCounts(ps[..|ps| - 1], now);
      OneMoreOccupant(ps, now);
      hide Occupants;
    }
  }

  lemma OneMoreOccupant(ps: seq<Participation>, now: Time)
    requires ps != []
    ensures |Occupants(ps, now)| == |Occupants(ps[..|ps| - 1], now)| + OccupiedBy(now)(ps[|ps| - 1])
  {
    var n := |ps| - 1;
    var last: set<nat> := if HoldsSeat(ps[n], now) then {n} else {};
    assert Occupants(ps, now) == Occupants(ps[..n], now) + last;
    assert n !in Occupants(ps[..n], now);
  }

  lemma SweepSparesHolders(p: Participation, q: Participation, now: Time)
    requires ParticipationOk(p) && Swept(p, q, now)
    ensures OccupiedBy(now)(q) == OccupiedBy(now)(p)
    ensures q.user == p.user && (Reserved(q, now) <==> Reserved(p, now))
    ensures p.status == Active || Reserved(p, now) ==> q == p
  {
    hide OrderOk, KeysOk;
  }

  lemma {:induction false} SameOccupied(ps: seq<Participation>, qs: seq<Participation>, now: Time)
    requires RowsOk(ps) && RowsSwept(ps, qs, now)
    ensures Total(qs, OccupiedBy(now)) == Total(ps, OccupiedBy(now))
  {
    hide ParticipationOk, Swept;
    if ps != [] {
      var n := |ps| - 1;
      assert RowsOk(ps[..n]);
      assert forall i :: 0 <= i < n ==> Swept(ps[..n][i], qs[..n][i], now);
      SameOccupied(ps[..n], qs[..n], now);
      SweepSparesHolders(ps[n], qs[n], now);
    }
  }

  // The user already has a seat, or an order that holds one.
  predicate Holds(ps: seq<Participation>, user: nat, now: Time) {
    exists i :: 0 <= i < |ps| && ps[i].user == user && Reserved(ps[i], now)
  }

  lemma SweptUserIsFound(b: Book, t: Time, user: nat, now: Time)
    requires BookOk(b, t)
    ensures var swept := ExpireRows(b.participations, now);
      var found := FindUser(swept, user);
      && RowsSwept(b.participations, swept, now)
      && Total(swept, OccupiedBy(now)) == |Occupants(b.participations, now)|
      && (found.None? ==> !Holds(b.participations, user, now))
      && (found.Some? ==>
            && found.value < |b.participations| && b.participations[found.value].user == user
            && (Holds(b.participations, user, now) <==> Reserved(swept[found.value], now)))
  {
    var ps := b.participations;
    var swept := ExpireRows(ps, now);
    assert RowsOk(ps) && UsersDistinct(ps);
    SweepClosesTheDue(ps, now);
    SameOccupied(ps, swept, now);
    OccupiedCounts(ps, now);
    hide ParticipationOk, Swept, Reserved, Occupants, OccupiedBy;
    forall i | 0 <= i < |ps|
      ensures swept[i].user == ps[i].user && (Reserved(swept[i], now) <==> Reserved(ps[i], now))
    {
      assert ParticipationOk(ps[i]);
      SweepSparesHolders(ps[i], swept[i], now);
    }
    assert forall i :: 0 <= i < |swept| ==> swept[i] in swept;
  }

  lemma ReservedMeans(p: Participation, now: Time)
    requires ParticipationOk(p)
    ensures Reserved(p, now) <==> p.status == Active || HasLiveOrder(p, now)
    ensures p.status == Active ==> HasRefundable(p)
  {
    if p.status == Active {
      SeatOrder(p);
    }
    if HasOpen(p) {
      assert OpenOrder(p) == Some(|p.orders| - 1);
    }
    hide OrderOk, KeysOk, SeatOk;
  }

  /** Who may sign up, exactly: whoever holds a seat already, and anybody else while the
      city is open and fewer people than the capacity hold one. */
  lemma SignUpAcceptedIff(b: Book, t: Time, user: nat, eligible: bool, cityOpen: bool, timeout: nat, now: Time)
    requires BookOk(b, t) && t <= now
    ensures SignUp(b, user, eligible, cityOpen, timeout, now).Ok? <==>
      && eligible && b.status in {Recruiting, Formed} && now < b.terms.formationDeadline
      && (Holds(b.participations, user, now) || (cityOpen && |Occupants(b.participations, now)| < b.terms.capacity))
  {
    hide *;
    SweptUserIsFound(b, t, user, now);
    SignUpChecks(b, user, eligible, cityOpen, timeout, now);
    var found := FindUser(ExpireRows(b.participations, now), user);
    if found.Some? {
      HolderIsSeen(b, t, found.value, now);
    }
  }

  lemma SignUpChecks(b: Book, user: nat, eligible: bool, cityOpen: bool, timeout: nat, now: Time)
    ensures var swept := ExpireRows(b.participations, now);
      var found := FindUser(swept, user);
      SignUp(b, user, eligible, cityOpen, timeout, now).Ok? <==>
        && eligible && b.status in {Recruiting, Formed} && now < b.terms.formationDeadline
        && (if found.Some? && swept[found.value].status == Active then HasRefundable(swept[found.value])
            else (found.Some? && HasLiveOrder(swept[found.value], now)) || (cityOpen && Total(swept, OccupiedBy(now)) < b.terms.capacity))
  {
    hide ExpireRows, FindUser, HasLiveOrder, HasRefundable, SignUpAgain, NewParticipation, Total, OccupiedBy;
  }

  lemma HolderIsSeen(b: Book, t: Time, k: nat, now: Time)
    requires BookOk(b, t) && t <= now && k < |b.participations|
    ensures var q := ExpireRows(b.participations, now)[k];
      && (Reserved(q, now) <==> q.status == Active || HasLiveOrder(q, now))
      && (q.status == Active ==> HasRefundable(q))
  {
    SweepKeepsOk(b, t, now);
    RowOf(ExpireAll(b, now), now, k);
    ReservedMeans(ExpireAll(b, now).participations[k], now);
    hide BookOk, ParticipationOk, ExpireRows, HasLiveOrder, Reserved;
  }

  // A row after its user has signed up: one new order, on the activity's terms, after
  // the orders and cases there were.
  predicate Joined(before: seq<PaymentOrder>, cases: seq<AfterSalesCase>, q: Participation, terms: Terms, expiresAt: Time) {
    && q.status == Awaiting && q.principal == terms.principal && q.fee == terms.fee && q.holdUntil == Some(expiresAt)
    && |q.orders| == |before| + 1 && q.orders[..|before|] == before && q.cases == cases
    && IsNew(Last(q), terms.principal, terms.fee) && Last(q).expiresAt == expiresAt
  }

  // `user` has signed up in row k; everyone else is swept and nothing more.
  predicate JoinsAt(b: Book, qs: seq<Participation>, user: nat, k: nat, expiresAt: Time, now: Time) {
    && k < |qs| == (if k < |b.participations| then |b.participations| else |b.participations| + 1)
    && (forall i :: 0 <= i < |b.participations| && i != k ==> Swept(b.participations[i], qs[i], now))
    && qs[k].user == user
    && if k < |b.participations| then
         && b.participations[k].user == user
         && Joined(ExpireDue(b.participations[k], now).orders, b.participations[k].cases, qs[k], b.terms, expiresAt)
       else
         && (forall p :: p in b.participations ==> p.user != user)
         && Joined([], [], qs[k], b.terms, expiresAt)
  }

  /** What signing up writes: nothing but the sweep for a user who holds a seat already,
      and otherwise one order, on the activity's terms, in the user's own row. */
  lemma SignUpWrites(b: Book, t: Time, user: nat, eligible: bool, cityOpen: bool, timeout: nat, now: Time) returns (k: nat)
    requires BookOk(b, t) && t <= now && SignUp(b, user, eligible, cityOpen, timeout, now).Ok?
    ensures var b' := SignUp(b, user, eligible, cityOpen, timeout, now).value;
      && b' == b.(participations := b'.participations)
      && if Holds(b.participations, user, now) then RowsSwept(b.participations, b'.participations, now)
         else JoinsAt(b, b'.participations, user, k, now + timeout, now)
  {
    hide *;
    SweptUserIsFound(b, t, user, now);
    SignUpValue(b, user, eligible, cityOpen, timeout, now);
    var swept := ExpireRows(b.participations, now);
    var found := FindUser(swept, user);
    if found.Some? {
      k := found.value;
      HolderIsSeen(b, t, k, now);
      RejoinsHere(b, t, swept, user, k, now + timeout, now);
    } else {
      k := |b.participations|;
      UserIsNew(b, t, user, now);
      JoinsAnew(b, swept, user, now + timeout, now);
    }
  }

  lemma UserIsNew(b: Book, t: Time, user: nat, now: Time)
    requires BookOk(b, t) && FindUser(ExpireRows(b.participations, now), user).None?
    ensures forall p :: p in b.participations ==> p.user != user
  {
    assert RowsOk(b.participations);
    SweepClosesTheDue(b.participations, now);
    UsersStay(b.participations, ExpireRows(b.participations, now), now);
    hide ParticipationOk, ExpireRows, FindUser;
  }

  lemma RejoinsHere(b: Book, t: Time, swept: seq<Participation>, user: nat, k: nat, expiresAt: Time, now: Time)
    requires BookOk(b, t) && swept == ExpireRows(b.participations, now) && RowsSwept(b.participations, swept, now)
    requires k < |b.participations| && b.participations[k].user == user && swept[k].user == user
    ensures JoinsAt(b, swept[k := SignUpAgain(swept[k], b.terms.principal, b.terms.fee, expiresAt)], user, k, expiresAt, now)
  {
    assert RowsOk(b.participations);
    SweptCases(b.participations, k, now);
    AgainJoined(swept[k], b.terms, expiresAt);
    SameUser(swept[k], user, b.terms, expiresAt);
    hide BookOk, RowsOk, ExpireRows, ExpireDue, Swept, Joined, SignUpAgain;
  }

  lemma JoinsAnew(b: Book, swept: seq<Participation>, user: nat, expiresAt: Time, now: Time)
    requires RowsSwept(b.participations, swept, now) && forall p :: p in b.participations ==> p.user != user
    ensures JoinsAt(b, swept + [NewParticipation(user, b.terms.principal, b.terms.fee, expiresAt)], user, |b.participations|, expiresAt, now)
  {
    hide Swept;
  }

  lemma SameUser(p: Participation, user: nat, terms: Terms, expiresAt: Time)
    requires p.user == user
    ensures SignUpAgain(p, terms.principal, terms.fee, expiresAt).user == user
  {
  }

  lemma AgainJoined(p: Participation, terms: Terms, expiresAt: Time)
    ensures Joined(p.orders, p.cases, SignUpAgain(p, terms.principal, terms.fee, expiresAt), terms, expiresAt)
  {
  }

  lemma SignUpValue(b: Book, user: nat, eligible: bool, cityOpen: bool, timeout: nat, now: Time)
    requires SignUp(b, user, eligible, cityOpen, timeout, now).Ok?
    ensures var swept := ExpireRows(b.participations, now);
      var found := FindUser(swept, user);
      SignUp(b, user, eligible, cityOpen, timeout, now).value == b.(participations :=
        if found.Some? && (swept[found.value].status == Active || HasLiveOrder(swept[found.value], now)) then swept
        else if found.Some? then swept[found.value := SignUpAgain(swept[found.value], b.terms.principal, b.terms.fee, now + timeout)]
        else swept + [NewParticipation(user, b.terms.principal, b.terms.fee, now + timeout)])
  {
    hide ExpireRows, FindUser, HasLiveOrder, HasRefundable, OccupiedCount, SignUpAgain, NewParticipation;
  }

  lemma {:induction false} SweptCases(ps: seq<Participation>, i: nat, now: Time)
    requires i < |ps| && RowsOk(ps)
    ensures ExpireRows(ps, now)[i] == ExpireDue(ps[i], now) && ExpireDue(ps[i], now).cases == ps[i].cases
  {
    RowIsSwept(ps[i], now);
    hide ParticipationOk, ExpireDue;
    if i < |ps| - 1 {
      assert RowsOk(ps[..|ps| - 1]);
      SweptCases(ps[..|ps| - 1], i, now);
    }
  }

  lemma UsersStay(ps: seq<Participation>, qs: seq<Participation>, now: Time)
    requires RowsOk(ps) && RowsSwept(ps, qs, now)
    ensures forall i :: 0 <= i < |ps| ==> qs[i].user == ps[i].user && qs[i] in qs
  {
    forall i | 0 <= i < |ps|
      ensures qs[i].user == ps[i].user
    {
      assert Swept(ps[i], qs[i], now);
    }
    hide ParticipationOk, Lapsed;
  }

  // ----- leaving -----

  // A waiting participant leaves: an order still open is closed with its hold let go.
  predicate WalksAway(p: Participation, q: Participation) {
    && |q.orders| == |p.orders|
    && q == p.(orders := q.orders, status := Participations.Cancelled, holdUntil := None)
    && if HasOpen(p) then
         q.orders == p.orders[|p.orders| - 1 := q.orders[|p.orders| - 1]] && Lapsed(Last(p), q.orders[|p.orders| - 1])
       else q.orders == p.orders
  }

  lemma WaitingWalksAway(p: Participation)
    requires ParticipationOk(p) && p.status == Awaiting
    ensures WalksAway(p, CloseAwaiting(p))
  {
    var n := |p.orders| - 1;
    assert OrderOk(p.orders[n]);
    if HasOpen(p) {
      assert OpenOrder(p) == Some(n);
    } else {
      assert OpenOrder(p).None?;
    }
    hide KeysOk, ReservationOk, RoutesOk, ReceiptsOk, LateOk, ShapeOk, SplitOk;
  }

  // What the rule gives back of each part lies within that part.
  predicate RuleFits(p: Participation, rule: RefundRule) {
    && 0 <= RoundPercent(p.principal, rule.principalPercent) <= p.principal
    && 0 <= RoundPercent(p.fee, rule.feePercent) <= p.fee
  }

  predicate AllDecided(p: Participation) {
    forall c :: c in p.cases ==> c.status != CasePending && c.status != CaseProcessing
  }

  lemma SeatRefundAccepted(p: Participation, principal: int, fee: int, retained: int, toOrganizer: bool)
    requires ParticipationOk(p) && p.status == Active
    ensures var n := |p.orders| - 1;
      CreateRefund(p, n, SelfCancelKey(n), principal, fee, retained, toOrganizer).Ok? <==> 0 <= principal <= p.principal && 0 <= fee <= p.fee
  {
    SeatOrder(p);
    NoRefundNoKey(p, |p.orders| - 1, SelfCancelKey(|p.orders| - 1));
    assert SeatOk(p);
    hide OrderOk, KeysOk;
  }

  lemma SeatLeavesIff(p: Participation, rules: seq<RefundRule>, startsAt: Time, now: Time)
    requires ParticipationOk(p) && p.status == Active
    ensures SelfCancel(p, rules, startsAt, now).Ok? <==> AllDecided(p) && now <= startsAt && RuleFits(p, MatchRule(rules, startsAt - now))
  {
    hide ParticipationOk, RoundPercent, MatchRule, SelfCancel, CreateRefund;
    SeatOrder(p);
    var rule := MatchRule(rules, startsAt - now);
    var principal := RoundPercent(p.principal, rule.principalPercent);
    SeatRefundAccepted(p, principal, RoundPercent(p.fee, rule.feePercent), p.principal - principal, p.principal - principal != 0);
    SeatCancelIs(p, |p.orders| - 1, rules, startsAt, now);
  }

  lemma SeatCancelIs(p: Participation, n: nat, rules: seq<RefundRule>, startsAt: Time, now: Time)
    requires p.status == Active && LatestRefundable(p) == Some(n)
    ensures var rule := MatchRule(rules, startsAt - now);
      var principal := RoundPercent(p.principal, rule.principalPercent);
      SelfCancel(p, rules, startsAt, now).Ok? <==>
        && AllDecided(p) && now <= startsAt
        && CreateRefund(p, n, SelfCancelKey(n), principal, RoundPercent(p.fee, rule.feePercent), p.principal - principal, p.principal - principal != 0).Ok?
  {
    DecidedOrNot(p);
    hide RoundPercent, MatchRule, CreateRefund, Newest, HasUndecidedCase, AllDecided;
  }

  lemma DecidedOrNot(p: Participation)
    ensures AllDecided(p) <==> !HasUndecidedCase(p)
  {
  }

  // What a user who cancels leaves behind, by where the user stood.
  predicate Leaves(p: Participation, q: Participation, rules: seq<RefundRule>, secondsBefore: int) {
    match p.status
    case Awaiting => WalksAway(p, q)
    case Active => p.orders != [] && LeavesByRule(p, q, MatchRule(rules, secondsBefore))
    case _ => q == p
  }

  /** Who may cancel, exactly, and what it does: one who waits walks away; one with a seat
      leaves by the rule for the time left before the start, unless a case is undecided
      or the activity has started; one who left before changes nothing. */
  lemma CancelOwnOutcome(b: Book, t: Time, i: nat, now: Time)
    requires BookOk(b, t) && i < |b.participations|
    ensures var p := b.participations[i];
      var r := CancelOwn(b, p.user, now);
      && (r.Ok? <==>
            && p.status != Expired
            && (p.status == Active ==> AllDecided(p) && now <= b.terms.startsAt && RuleFits(p, MatchRule(b.terms.rules, b.terms.startsAt - now))))
      && (r.Ok? ==>
            && |r.value.participations| == |b.participations|
            && r.value.participations == b.participations[i := r.value.participations[i]]
            && Leaves(p, r.value.participations[i], b.terms.rules, b.terms.startsAt - now))
  {
    var p := b.participations[i];
    FoundAt(b, t, i);
    RowOf(b, t, i);
    if p.status == Awaiting {
      WaitingWalksAway(p);
    } else if p.status == Active {
      SeatLeavesIff(p, b.terms.rules, b.terms.startsAt, now);
      if SelfCancel(p, b.terms.rules, b.terms.startsAt, now).Ok? {
        SelfCancellationByRule(p, b.terms.rules, b.terms.startsAt, now);
      }
    }
    NoSeatToLeave(p, b.terms.rules, b.terms.startsAt, now);
    hide BookOk, ParticipationOk, FindUser, SelfCancel, LeavesByRule, WalksAway, RuleFits, AllDecided, MatchRule, Total;
  }

  lemma NoSeatToLeave(p: Participation, rules: seq<RefundRule>, startsAt: Time, now: Time)
    ensures p.status == Participations.Cancelled ==> SelfCancel(p, rules, startsAt, now) == Ok(p)
    ensures p.status == Awaiting ==> SelfCancel(p, rules, startsAt, now) == Ok(CloseAwaiting(p))
    ensures p.status == Expired ==> SelfCancel(p, rules, startsAt, now).Refused?
  {
  }

  // What a cancellation of the whole activity does to one row.
  predicate LeavesWithAll(p: Participation, q: Participation, kind: MassKind) {
    match p.status
    case Awaiting => WalksAway(p, q)
    case Active =>
      p.orders != [] && q.status == Participations.Cancelled && Refunds(p, q, MassKey(kind, |p.orders| - 1), Last(p).principal, Last(p).fee)
    case _ => q == p
  }

  lemma MassCancelOutcome(p: Participation, kind: MassKind)
    requires ParticipationOk(p)
    ensures MassCancel(p, kind).Ok? && LeavesWithAll(p, MassCancel(p, kind).value, kind)
  {
    SeatTerms(p);
    if p.status == Awaiting {
      WaitingWalksAway(p);
    } else if p.status == Active {
      MassCancellationInFull(p, kind);
    }
    hide ParticipationOk, CreateRefund, WalksAway, Refunds;
  }

  /** When an activity ends early everyone waiting walks away, everyone with a seat is
      refunded in full, and everyone else is left as they were. */
  lemma EveryoneLeaves(b: Book, t: Time, c: Call, now: Time) returns (kind: MassKind)
    requires BookOk(b, t) && IsOver(Next(b, c, now)) && !IsOver(b)
    ensures var b' := Next(b, c, now);
      && |b'.participations| == |b.participations|
      && forall i :: 0 <= i < |b.participations| ==> LeavesWithAll(b.participations[i], b'.participations[i], kind)
  {
    kind := CancellationRows(b, t, c, now);
    assert RowsOk(b.participations);
    hide BookOk, Next, ParticipationOk, MassCancel, LeavesWithAll;
    forall i | 0 <= i < |b.participations|
      ensures LeavesWithAll(b.participations[i], Next(b, c, now).participations[i], kind)
    {
      MassCancelOutcome(b.participations[i], kind);
    }
  }

  /** An activity is published exactly if it is under review with its publishing payment
      made, its guards hold and its formation deadline lies ahead. */
  lemma ApprovalPublishes(b: Book, t: Time, guards: bool, now: Time)
    requires BookOk(b, t)
    ensures Next(b, ReviewApproveCall(guards), now) ==
      if b.status == UnderReview && b.publish.status == PublishPaid && guards && now < b.terms.formationDeadline then
        b.(status := Recruiting, publishedAt := now)
      else b
  {
    assert TermsOk(b.terms);
    hide BookOk;
  }

  // ----- what a seat given up leaves to the organizer -----

  lemma FirstRowKept(o: PaymentOrder, q: PaymentOrder)
    requires Extends(o, q) && o.refunds != []
    ensures q.refunds != [] && SameMoney(o.refunds[0], q.refunds[0]) && q.principal == o.principal
  {
  }

  lemma SingleSucceeded(o: PaymentOrder)
    requires |o.refunds| == 1 && o.refunds[0].status == RefundSucceeded
    ensures SucceededPrincipal(o) == o.refunds[0].principal
  {
    assert o.refunds == [] + [o.refunds[0]];
    TotalAppend([], o.refunds[0], SucceededPrincipalOf);
  }

  // What the order of a seat given up by this rule leaves to the organizer.
  predicate LeavesTheRest(p: Participation, o: PaymentOrder, rule: RefundRule) {
    && o.principal == p.principal && o.refunds != []
    && o.refunds[0].principal == RoundPercent(p.principal, rule.principalPercent)
    && (o.refunds[0].status != RefundSucceeded ==> LeftToOrganizer(o) == 0)
    && (o.refunds[0].status == RefundSucceeded && |o.refunds| == 1 ==>
          LeftToOrganizer(o) == p.principal - RoundPercent(p.principal, rule.principalPercent))
    && (o.refunds[0].status == RefundSucceeded && o.refunds[0].principal < p.principal ==>
          LeftToOrganizer(o) == p.principal - SucceededPrincipal(o))
  }

  /** Whoever gives up a seat by rule leaves to the organizer, in every later state and
      from the moment the refund is carried out, exactly the principal not given back:
      with no refund but that one, the part the rule withholds. */
  lemma GivenUpSeatPaysTheOrganizer(b: Book, t: Time, i: nat, now: Time, es: seq<Event>)
    requires BookOk(b, t) && t <= now && Ordered(es, now) && i < |b.participations| && b.participations[i].status == Active
    requires CancelOwn(b, b.participations[i].user, now).Ok?
    ensures var p := b.participations[i];
      var k, ps := |p.orders| - 1, Run(CancelOwn(b, p.user, now).value, es).participations;
      && i < |ps| && 0 <= k < |ps[i].orders| && LeavesTheRest(p, ps[i].orders[k], MatchRule(b.terms.rules, b.terms.startsAt - now))
  {
    hide BookOk, Run, ParticipationOk, CancelOwn, RoundPercent, MatchRule, Ordered;
    var p := b.participations[i];
    var left := CancelOwn(b, p.user, now).value;
    CancelOwnOutcome(b, t, i, now);
    CancelOwnKeepsOk(b, t, p.user, now);
    RowOf(b, t, i);
    SeatTerms(p);
    RunExtends(left, now, es);
    RestIsLeft(p, left.participations[i], MatchRule(b.terms.rules, b.terms.startsAt - now), Run(left, es).participations[i]);
  }

  lemma RestIsLeft(p: Participation, q: Participation, rule: RefundRule, later: Participation)
    requires p.orders != [] && Last(p).principal == p.principal && RuleFits(p, rule) && LeavesByRule(p, q, rule) && RowExtends(q, later)
    ensures |p.orders| <= |later.orders| && LeavesTheRest(p, later.orders[|p.orders| - 1], rule)
  {
    var k := |p.orders| - 1;
    hide RoundPercent, LeftToOrganizer;
    FirstRowKept(q.orders[k], later.orders[k]);
    LeftAfterRule(later.orders[k]);
  }

  lemma LeftAfterRule(o: PaymentOrder)
    requires o.refunds != [] && (o.refunds[0].toOrganizer <==> o.refunds[0].principal < o.principal) && o.refunds[0].principal <= o.principal
    ensures o.refunds[0].status != RefundSucceeded ==> LeftToOrganizer(o) == 0
    ensures o.refunds[0].status == RefundSucceeded && |o.refunds| == 1 ==> LeftToOrganizer(o) == o.principal - o.refunds[0].principal
    ensures o.refunds[0].status == RefundSucceeded && o.refunds[0].principal < o.principal ==> LeftToOrganizer(o) == o.principal - SucceededPrincipal(o)
  {
    if o.refunds[0].status == RefundSucceeded && |o.refunds| == 1 {
      SingleSucceeded(o);
    }
    hide SucceededPrincipal;
  }

  // ----- formation -----

  /** A formed activity is in progress from its start on and completed from its end on,
      each by one call of its job; the jobs do nothing before or otherwise. */
  lemma JobsStartAndComplete(b: Book, t: Time, now: Time, later: Time)
    requires BookOk(b, t) && t <= now <= later
    ensures Next(b, StartCall, now) == if b.status == Formed && b.terms.startsAt <= now then b.(status := InProgress) else b
    ensures Next(b, CompleteCall, now) ==
      if b.status == InProgress && b.terms.endsAt <= now then b.(status := ActivityStatus.Completed) else b
    ensures b.status == Formed && b.terms.endsAt <= later && b.terms.startsAt <= now ==>
      Next(Next(b, StartCall, now), CompleteCall, later).status == ActivityStatus.Completed
  {
    hide BookOk;
  }

  // Formed, or past it.
  predicate StaysFormed(b: Book) { b.status in {Formed, InProgress, ActivityStatus.Completed, CalledOff} }

  /** An activity that is formed when its formation deadline has passed never goes back to
      recruiting, however many participants leave it, and never fails to form. */
  lemma {:induction false} FormedForGood(b: Book, t: Time, es: seq<Event>)
    requires BookOk(b, t) && Ordered(es, t) && b.status == Formed && b.terms.formationDeadline <= t
    ensures StaysFormed(Run(b, es))
  {
    hide BookOk, Next, ActiveCount;
    if es != [] {
      var n := |es| - 1;
      FormedForGood(b, t, es[..n]);
      RunKeepsOk(b, t, es[..n]);
      RunTerms(b, t, es);
      RunTerms(b, t, es[..n]);
      ClockAdvances(es, t);
      NextCourse(Run(b, es[..n]), Clock(es[..n], t), es[n].call, es[n].at);
    }
  }

  lemma {:induction false} ClockAdvances(es: seq<Event>, t: Time)
    requires Ordered(es, t)
    ensures t <= Clock(es, t)
  {
    if es != [] {
      ClockAdvances(es[..|es| - 1], t);
    }
  }
}
