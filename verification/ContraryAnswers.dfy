/** A run in which the channel calls a refund failed that it has called successful. */
module ContraryAnswers {
  import opened Wrappers
  import opened Totals
  import opened WalletAllocations
  import opened PaymentOrders
  import opened OrderMoves
  import opened Participations
  import opened Settlements
  import opened Activities
  import opened ActivityInvariants
  import opened ActivityMoves
  import opened ActivityRuns
  import opened PaymentRuns

  // ----- tables with one row -----

  lemma OneTotal<T>(x: T, f: T -> int)
    ensures Total([x], f) == f(x)
  {
    assert [x] == [] + [x];
    TotalAppend([], x, f);
  }

  lemma OneNewest(o: PaymentOrder, p: PaymentOrder -> bool)
    ensures Newest([o], p) == (if p(o) then Some(0) else None)
  {
    assert [o][..0] == [];
  }

  lemma OneUser(p: Participation)
    ensures FindUser([p], p.user) == Some(0)
  {
  }

  lemma NoSuchKey(o: PaymentOrder, key: RefundKey)
    requires forall r :: r in o.refunds ==> r.key != key
    ensures FindKey([o], key).None?
  {
    assert [o][..0] == [];
  }

  // ----- the states -----

  const SELF := Refund(SelfCancelKey(0), 50, 0, 0, 50, 50, true, RefundPending, false)
  const AFTER := Refund(AfterSalesKey(0), 50, 0, 0, 50, 0, false, RefundPending, false)
  const CASE := AfterSalesCase(50, 0, 0, 0, CasePending, None, false)

  function TheTerms(): Terms { Terms(1, 1, 100, 0, 1000, 2000, 3000, [RefundRule(0, 50, 0)]) }

  function State(status: ActivityStatus, at: Time, rows: seq<Participation>): Book {
    Book(TheTerms(), status, at, PublishOrder(100, 0, None, true, PublishPaid, None), rows, None)
  }

  function Order(status: OrderStatus, paidAt: Option<Time>, refunds: seq<Refund>): PaymentOrder {
    PaymentOrder(100, 0, status, 102, paidAt, None, refunds, false)
  }

  function Row(status: ParticipationStatus, holdUntil: Option<Time>, o: PaymentOrder, cases: seq<AfterSalesCase>): Participation {
    Participation(7, status, 100, 0, holdUntil, [o], cases)
  }

  function Fresh(): Book { State(UnderReview, 0, []) }
  function Open(): Book { State(Recruiting, 1, []) }
  function SignedUp(): Book { State(Recruiting, 1, [Row(Awaiting, Some(102), Order(PaymentOrders.PendingPayment, None, []), [])]) }
  function Seated(): Book { State(Formed, 1, [Row(Active, None, Order(Paid, Some(3), []), [])]) }
  function Left(): Book { State(Recruiting, 1, [Row(Participations.Cancelled, None, Order(Paid, Some(3), [SELF]), [])]) }

  function Done(): Refund { SELF.(status := RefundSucceeded) }
  function PaidHalf(refunds: seq<Refund>): PaymentOrder { Order(PartlyRefunded, Some(3), refunds) }

  function Returned(): Book { State(Recruiting, 1, [Row(Participations.Cancelled, None, PaidHalf([Done()]), [])]) }
  function Complained(): Book { State(Recruiting, 1, [Row(Participations.Cancelled, None, PaidHalf([Done()]), [CASE])]) }

  function Approved(): AfterSalesCase { CASE.(status := CaseApproved, approvedPrincipal := 50, refund := Some(RefundRef(0, 1))) }

  function Settling(): Book { State(Recruiting, 1, [Row(Participations.Cancelled, None, PaidHalf([Done(), AFTER]), [Approved()])]) }

  function Undone(): Book {
    State(Recruiting, 1, [Row(Participations.Cancelled, None, PaidHalf([SELF.(status := RefundFailed), AFTER]), [Approved()])])
  }

  // ----- the steps -----

  lemma Opens()
    ensures Next(Fresh(), ReviewApproveCall(true), 1) == Open()
  {
  }

  lemma SignsUp()
    ensures Next(Open(), SignUpCall(7, true, true, 100), 2) == SignedUp()
  {
    assert ExpireAll(Open(), 2) == Open();
    assert OccupiedCount(Open(), 2) == 0;
  }

  lemma Pays()
    ensures Next(SignedUp(), ChannelSuccessCall(0, 0, 3), 3) == Seated()
  {
    var p := SignedUp().participations[0];
    var q := Row(Active, None, Order(Paid, Some(3), []), []);
    assert ApplySuccess(p, 0, 3) == Ok(Success(q, true, false)) by {
      assert p.orders[0 := Order(Paid, Some(3), [])] == q.orders;
    }
    var b := Put(SignedUp(), 0, q);
    assert b.participations == [q];
    OneTotal(q, ActiveOf);
    hide ApplySuccess, Total;
  }

  lemma HalfIsReturned()
    ensures MatchRule(TheTerms().rules, 1996) == RefundRule(0, 50, 0)
    ensures RoundPercent(100, 50) == 50 && RoundPercent(0, 0) == 0
  {
    assert TheTerms().rules[..0] == [];
  }

  lemma LeavingRow()
    ensures SelfCancel(Seated().participations[0], TheTerms().rules, 2000, 4) == Ok(Left().participations[0])
  {
    hide MatchRule, RoundPercent, Newest, FindKey;
    HalfIsReturned();
    var p := Seated().participations[0];
    var o := p.orders[0];
    var q := Left().participations[0];
    OneNewest(o, OrderIsRefundable);
    NoSuchKey(o, SelfCancelKey(0));
    assert o.refunds + [SELF] == q.orders[0].refunds;
    assert AddRefund(o, SelfCancelKey(0), 50, 0, 50, true) == Ok(q.orders[0]);
    assert p.orders[0 := q.orders[0]] == q.orders;
    hide AddRefund;
  }

  lemma Leaves()
    ensures Next(Seated(), CancelOwnCall(7), 4) == Left()
  {
    var p := Seated().participations[0];
    var q := Left().participations[0];
    OneUser(p);
    LeavingRow();
    assert Put(Seated(), 0, q).participations == [q];
    OneTotal(q, ActiveOf);
    hide SelfCancel, Total, FindUser;
  }

  lemma Returns()
    ensures Next(Left(), RefundCall(0, RefundRef(0, 0), ChannelSucceeded, 5), 5) == Returned()
  {
    var p := Left().participations[0];
    var q := Returned().participations[0];
    assert p.orders[0].refunds[0 := Done()] == [Done()];
    OneTotal(Done(), SucceededAmountOf);
    assert CompleteRefund(p.orders[0], 0) == Ok(PaidHalf([Done()]));
    assert p.orders[0 := PaidHalf([Done()])] == q.orders;
    assert Put(Left(), 0, q) == Returned();
    hide CompleteRefund;
  }

  lemma Complains()
    ensures Next(Returned(), RegisterCaseCall(7, None, Periods(0, 0)), 6) == Complained()
  {
    var p := Returned().participations[0];
    var q := Complained().participations[0];
    OneUser(p);
    OneNewest(p.orders[0], OrderIsRefundable);
    OneTotal(Done(), PrincipalOf);
    OneTotal(Done(), FeeOf);
    assert CreateCase(p, None) == Ok(q) by { assert p.cases + [CASE] == q.cases; }
    assert Put(Returned(), 0, q) == Complained();
    hide CreateCase, FindUser;
  }

  lemma Decides()
    ensures Next(Complained(), ApproveCall(0, 0, None, None, true), 7) == Settling()
  {
    var p := Complained().participations[0];
    var q := Settling().participations[0];
    var o := p.orders[0];
    OneNewest(o, OrderIsRefundable);
    NoSuchKey(o, AfterSalesKey(0));
    OneTotal(Done(), PrincipalOf);
    OneTotal(Done(), FeeOf);
    OneTotal(Done(), AmountOf);
    OneTotal(Done(), WalletOf);
    OneTotal(Done(), UnfinishedOf);
    assert AddRefund(o, AfterSalesKey(0), 50, 0, 0, false) == Ok(q.orders[0]) by { assert o.refunds + [AFTER] == q.orders[0].refunds; }
    assert p.orders[0 := q.orders[0]] == q.orders && p.cases[0 := Approved()] == q.cases;
    assert ApproveCase(p, 0, None, None, true) == Ok(q) by { hide AddRefund, FindKey, Newest; }
    assert Put(Complained(), 0, q) == Settling();
    hide ApproveCase;
  }

  lemma Contradicts()
    ensures Next(Settling(), RefundCall(0, RefundRef(0, 0), ChannelFailed, 8), 8) == Undone()
  {
    var p := Settling().participations[0];
    var q := Undone().participations[0];
    assert p.orders[0].refunds[0 := SELF.(status := RefundFailed)] == q.orders[0].refunds;
    assert p.orders[0 := q.orders[0]] == q.orders;
    assert Put(Settling(), 0, q) == Undone();
  }

  // ----- the run -----

  // The run so far ends in `here`, and the channel has taken nothing back.
  predicate Reaches(es: seq<Event>, here: Book) {
    Run(Fresh(), es) == here && Ordered(es, 0) && Steady(Fresh(), es)
  }

  lemma Appends(es: seq<Event>, here: Book, e: Event, next: Book)
    requires Reaches(es, here) && Clock(es, 0) <= e.at && Next(here, e.call, e.at) == next
    ensures Run(Fresh(), es + [e]) == next && Ordered(es + [e], 0) && Clock(es + [e], 0) == e.at
    ensures SteadyCall(here, e.call) ==> Reaches(es + [e], next)
  {
    hide Next, SteadyCall;
    assert (es + [e])[..|es|] == es;
  }

  lemma StoryToSeat() returns (es: seq<Event>)
    ensures Reaches(es, Seated()) && Clock(es, 0) == 3
  {
    hide Next, Reaches;
    es := [];
    assert Reaches(es, Fresh()) by { StoryBegins(); }
    Opens();
    Appends(es, Fresh(), Event(ReviewApproveCall(true), 1), Open());
    es := es + [Event(ReviewApproveCall(true), 1)];
    SignsUp();
    Appends(es, Open(), Event(SignUpCall(7, true, true, 100), 2), SignedUp());
    es := es + [Event(SignUpCall(7, true, true, 100), 2)];
    Pays();
    Appends(es, SignedUp(), Event(ChannelSuccessCall(0, 0, 3), 3), Seated());
    es := es + [Event(ChannelSuccessCall(0, 0, 3), 3)];
  }

  lemma StoryBegins()
    ensures Reaches([], Fresh())
  {
  }

  lemma StoryToRefunds() returns (es: seq<Event>)
    ensures Reaches(es, Settling()) && Clock(es, 0) == 7
  {
    hide Next, Reaches;
    es := StoryToSeat();
    Leaves();
    Appends(es, Seated(), Event(CancelOwnCall(7), 4), Left());
    es := es + [Event(CancelOwnCall(7), 4)];
    Returns();
    Appends(es, Left(), Event(RefundCall(0, RefundRef(0, 0), ChannelSucceeded, 5), 5), Returned());
    es := es + [Event(RefundCall(0, RefundRef(0, 0), ChannelSucceeded, 5), 5)];
    Complains();
    Appends(es, Returned(), Event(RegisterCaseCall(7, None, Periods(0, 0)), 6), Complained());
    es := es + [Event(RegisterCaseCall(7, None, Periods(0, 0)), 6)];
    Decides();
    Appends(es, Complained(), Event(ApproveCall(0, 0, None, None, true), 7), Settling());
    es := es + [Event(ApproveCall(0, 0, None, None, true), 7)];
  }

  // What ledger and status say of the only order.
  predicate Parted(b: Book) {
    && |b.participations| == 1 && |b.participations[0].orders| == 1
    && !StatusAgrees(b.participations[0].orders[0])
    && Total(b.participations[0].orders[0].refunds, UnfinishedOf) == 2
  }

  lemma UndoneParts()
    ensures Parted(Undone())
  {
    PairSums(SELF.(status := RefundFailed), AFTER);
    hide Total;
  }

  /** From a fresh activity a run with no contradiction reaches orders in step with
      their ledgers; one more answer, "failed" for the refund that succeeded, leaves the
      order partly refunded with nothing refunded, and two refunds unfinished. */
  lemma OneContraryAnswer() returns (es: seq<Event>, last: Event)
    ensures Opening(Fresh()) && Ordered(es + [last], 0)
    ensures Steady(Fresh(), es) && LedgersOk(Run(Fresh(), es))
    ensures Parted(Run(Fresh(), es + [last]))
  {
    hide Next, Run, Steady, LedgersOk, Parted;
    es := StoryToRefunds();
    last := Event(RefundCall(0, RefundRef(0, 0), ChannelFailed, 8), 8);
    Contradicts();
    Appends(es, Settling(), last, Undone());
    StatusAgreesWithLedger(Fresh(), 0, es);
    UndoneParts();
  }
}
