/** Opening the payment of one order with the channel: one transaction decides, the
    channel is called, another transaction records the answer. Callers may overlap
    and may stop anywhere. */
module PaymentSessions {
  import opened Wrappers
  import opened WalletAllocations

  type Time = int

  datatype Preorder = NoPreorder | Submitting | ReadyToPay | Failed

  // The stored payment row; `sent` says that it carries a request identity.
  datatype Row = Row(sent: bool, preorder: Preorder, requestedAt: Time, scene: nat, invoke: bool, attempts: nat)

  datatype Creation = Creation(orderNo: nat, amount: nat)

  datatype Caller = Calling(amount: nat, attempt: nat) | Called(attempt: nat)

  datatype Order = Order(orderNo: nat, payable: nat, open: bool, expiresAt: Time)

  datatype State = State(
    order: Order,
    allocation: Option<Allocation>,
    row: Option<Row>,
    callers: map<nat, Caller>,
    paidByWallet: bool,
    creations: seq<Creation>)

  // The answer a caller of the service gets from the first transaction.
  datatype Outcome = Opened | Replayed | InProgress | QueryOnly | PaidByWallet | Rejected

  const STALE_AFTER := 30

  function Decide(s: State, available: nat, scene: nat, now: Time): (State, Outcome) {
    if !s.order.open || s.order.expiresAt <= now then (s, Rejected)
    else
      var sent := s.row.Some? && s.row.value.sent;
      var prepared := WalletAllocations.Prepare(s.allocation, s.order.payable, available, sent);
      if prepared.Refused? then (s, Rejected)
      else
        var a := prepared.value;
        var held := s.(allocation := Some(a));
        if a.external == 0 then (held.(paidByWallet := true, order := s.order.(open := false)), PaidByWallet)
        else
          var row := if s.row.Some? then s.row.value else Row(false, NoPreorder, now, 0, false, 0);
          if row.preorder == ReadyToPay && row.scene == scene && row.invoke then (held.(row := Some(row)), Replayed)
          else if row.preorder == Submitting && row.requestedAt > now - STALE_AFTER then (s, InProgress)
          else if row.scene != 0 && row.scene != scene then (s, Rejected)
          else if row.sent then (s, QueryOnly)
          else (held.(row := Some(Row(true, Submitting, now, scene, false, row.attempts + 1))), Opened)
  }

  datatype Step =
    | Open(caller: nat, available: nat, scene: nat, now: Time)
    | CallChannel(caller: nat)
    | RecordAnswer(caller: nat, invoke: bool)
    | RecordError(caller: nat)
    | CloseOrder
    | Crash(caller: nat)

  function Next(s: State, step: Step): State {
    match step
    case Open(c, available, scene, now) =>
      if c in s.callers then s
      else
        var (s', outcome) := Decide(s, available, scene, now);
        if outcome == Opened && s'.allocation.Some? && s'.row.Some? then
          s'.(callers := s.callers[c := Calling(s'.allocation.value.external, s'.row.value.attempts)])
        else s'
    case CallChannel(c) =>
      if c !in s.callers || !s.callers[c].Calling? then s
      else s.(creations := s.creations + [Creation(s.order.orderNo, s.callers[c].amount)], callers := s.callers[c := Called(s.callers[c].attempt)])
    case RecordAnswer(c, invoke) =>
      if c !in s.callers || !s.callers[c].Called? || s.row.None? then s
      else if s.row.value.attempts != s.callers[c].attempt || s.row.value.preorder != Submitting then s.(callers := s.callers - {c})
      else s.(callers := s.callers - {c}, row := Some(s.row.value.(preorder := if invoke then ReadyToPay else Failed, invoke := invoke)))
    case RecordError(c) =>
      if c !in s.callers || !s.callers[c].Called? || s.row.None? then s
      else if s.row.value.attempts != s.callers[c].attempt || s.row.value.preorder != Submitting then s.(callers := s.callers - {c})
      else s.(callers := s.callers - {c}, row := Some(s.row.value.(preorder := Failed)))
    case CloseOrder => s.(order := s.order.(open := false), allocation := if s.allocation.Some? then Some(Release(s.allocation.value)) else None)
    case Crash(c) => s.(callers := s.callers - {c})
  }

  function Start(order: Order): State { State(order, None, None, map[], false, []) }

  function Run(s: State, steps: seq<Step>): State {
    if steps == [] then s else Next(Run(s, steps[..|steps| - 1]), steps[|steps| - 1])
  }

  // Calls made to the channel, and calls about to be made.
  predicate Pending(s: State, c: nat) { c in s.callers && s.callers[c].Calling? }

  ghost predicate Inv(s: State) {
    && (s.allocation.Some? ==> LegsMatch(s.allocation.value) && s.allocation.value.payable == s.order.payable)
    && (forall c :: Pending(s, c) ==>
          && s.creations == [] && s.row.Some? && s.row.value.sent
          && s.allocation.Some? && s.callers[c].amount == s.allocation.value.external > 0)
    && (forall c, d :: Pending(s, c) && Pending(s, d) ==> c == d)
    && |s.creations| <= 1
    && (s.creations != [] ==>
          && s.row.Some? && s.row.value.sent && s.allocation.Some?
          && s.creations[0] == Creation(s.order.orderNo, s.allocation.value.external) && s.allocation.value.external > 0)
    && (s.row.Some? && s.row.value.preorder != NoPreorder ==> s.row.value.sent)
    && (s.paidByWallet ==> s.creations == [] && s.allocation.Some? && s.allocation.value.external == 0)
  }

  lemma PreparedLegs(existing: Option<Allocation>, payable: nat, available: nat, externalOnly: bool)
    requires existing.Some? ==> LegsMatch(existing.value) && existing.value.payable == payable
    ensures var r := WalletAllocations.Prepare(existing, payable, available, externalOnly);
      r.Ok? ==> LegsMatch(r.value) && r.value.payable == payable && (existing.Some? ==> r.value == existing.value)
  {
  }

  // What a decision may change: it holds the split, and may mark the row as sent.
  predicate Holding(s: State, a: Allocation, s': State) {
    && s'.allocation == Some(a) && s'.callers == s.callers && s'.creations == s.creations
    && s'.order.orderNo == s.order.orderNo && s'.order.payable == s.order.payable
    && (s.row.Some? && s.row.value.sent ==> s'.row.Some? && s'.row.value.sent)
    && (s'.row.Some? && s'.row.value.preorder != NoPreorder ==> s'.row.value.sent || s'.row == s.row)
    && (s'.paidByWallet ==> s.paidByWallet || a.external == 0)
  }

  lemma DecisionHolds(s: State, available: nat, scene: nat, now: Time)
    ensures var (s', outcome) := Decide(s, available, scene, now);
      var r := WalletAllocations.Prepare(s.allocation, s.order.payable, available, s.row.Some? && s.row.value.sent);
      && (s' == s || (r.Ok? && Holding(s, r.value, s')))
      && (outcome == Opened ==>
            && !(s.row.Some? && s.row.value.sent) && r.Ok? && s'.allocation == Some(r.value) && r.value.external > 0
            && s'.row.Some? && s'.row.value.sent)
  {
    hide WalletAllocations.Prepare;
  }

  lemma DecideKeepsInv(s: State, available: nat, scene: nat, now: Time)
    requires Inv(s)
    ensures var (s', outcome) := Decide(s, available, scene, now);
      && Inv(s') && s'.callers == s.callers && s'.creations == s.creations
      && s'.order.orderNo == s.order.orderNo && s'.order.payable == s.order.payable
      && (s.row.Some? && s.row.value.sent ==> outcome != Opened)
      && (outcome == Opened ==> s'.row.Some? && s'.row.value.sent && s'.allocation.Some? && s'.allocation.value.external > 0)
  {
    var (s', _) := Decide(s, available, scene, now);
    var sent := s.row.Some? && s.row.value.sent;
    DecisionHolds(s, available, scene, now);
    hide Decide;
    PreparedLegs(s.allocation, s.order.payable, available, sent);
    assert s.row.Some? && s.row.value.preorder != NoPreorder ==> sent;
    hide WalletAllocations.Prepare, LegsMatch, Inv;
    if s' != s {
      HeldKeepsInv(s, WalletAllocations.Prepare(s.allocation, s.order.payable, available, sent).value, s');
    }
  }

  // Holding the split, and at most marking the row as sent.
  lemma HeldKeepsInv(s: State, a: Allocation, s': State)
    requires Inv(s) && LegsMatch(a) && a.payable == s.order.payable && (s.allocation.Some? ==> a == s.allocation.value)
    requires Holding(s, a, s')
    ensures Inv(s')
  {
    SamePending(s, s');
    hide LegsMatch, Pending;
  }

  lemma SamePending(s: State, s': State)
    requires s'.callers == s.callers
    ensures forall c :: Pending(s', c) == Pending(s, c)
  {
  }

  lemma NextKeepsInv(s: State, step: Step)
    requires Inv(s)
    ensures Inv(Next(s, step))
    ensures Next(s, step).order.orderNo == s.order.orderNo && Next(s, step).order.payable == s.order.payable
  {
    match step
    case Open(c, available, scene, now) =>
      DecideKeepsInv(s, available, scene, now);
      hide Decide;
    case CallChannel(c) =>
      assert Pending(s, c) ==> forall d :: Pending(Next(s, step), d) ==> Pending(s, d) && d != c;
    case _ =>
      assert forall d :: Pending(Next(s, step), d) ==> Pending(s, d);
  }

  /** The first time a payment is opened it is paid by the wallet if that covers all of it;
      otherwise the wallet gives all it has and the channel is to be asked for the rest. */
  lemma FirstDecision(s: State, available: nat, scene: nat, now: Time)
    requires s.row.None? && s.allocation.None? && s.order.open && now < s.order.expiresAt
    ensures var (s', outcome) := Decide(s, available, scene, now);
      && s'.allocation.Some? && LegsMatch(s'.allocation.value) && s'.allocation.value.payable == s.order.payable
      && s'.callers == s.callers && s'.creations == s.creations
      && if s.order.payable <= available then
           outcome == PaidByWallet && s'.paidByWallet && !s'.order.open && s'.allocation.value.wallet == s.order.payable && s'.row.None?
         else
           && outcome == Opened && s'.order == s.order && s'.allocation.value.wallet == available
           && s'.row == Some(Row(true, Submitting, now, scene, false, 1))
  {
  }

  /** Once the channel has been asked nobody asks again: the stored answer is given out
      again for the same scene, and all others wait or only query. */
  lemma LaterDecision(s: State, available: nat, scene: nat, now: Time)
    requires Inv(s) && s.row.Some? && s.row.value.sent && s.order.open && now < s.order.expiresAt
    requires s.allocation.Some? && s.allocation.value.external > 0 && !s.allocation.value.walletReleased && s.allocation.value.status != Released
    ensures var (s', outcome) := Decide(s, available, scene, now);
      var row := s.row.value;
      && s' == s
      && outcome ==
           if row.preorder == ReadyToPay && row.scene == scene && row.invoke then Replayed
           else if row.preorder == Submitting && now - row.requestedAt < 30 then InProgress
           else if row.scene == 0 || row.scene == scene then QueryOnly
           else Rejected
  {
  }

  /** The channel's answer makes the payment ready exactly if it can be invoked. */
  lemma AnswerOutcome(s: State, c: nat, invoke: bool)
    requires c in s.callers && s.callers[c].Called? && s.row.Some?
    requires s.row.value.attempts == s.callers[c].attempt && s.row.value.preorder == Submitting
    ensures var s' := Next(s, RecordAnswer(c, invoke));
      && c !in s'.callers && s'.row.Some? && s' == s.(callers := s'.callers, row := s'.row)
      && s'.row.value.sent == s.row.value.sent && s'.row.value.scene == s.row.value.scene
      && (s'.row.value.preorder == ReadyToPay <==> invoke) && (s'.row.value.preorder == Failed <==> !invoke) && s'.row.value.invoke == invoke
  {
  }

  /** Whatever the callers do and wherever they stop, the channel is asked at most
      once to collect a payment, for the external leg of the split and for nothing
      when the wallet paid it all. */
  lemma {:induction false} CreatedAtMostOnce(order: Order, steps: seq<Step>)
    ensures Inv(Run(Start(order), steps))
    ensures var s := Run(Start(order), steps);
      && |s.creations| <= 1
      && (s.paidByWallet ==> s.creations == [])
      && (s.creations != [] ==> s.allocation.Some? && s.creations == [Creation(order.orderNo, s.allocation.value.external)])
      && (s.creations != [] ==> 0 < s.allocation.value.external <= order.payable)
      && s.order.orderNo == order.orderNo && s.order.payable == order.payable
  {
    hide Next;
    if steps != [] {
      CreatedAtMostOnce(order, steps[..|steps| - 1]);
      NextKeepsInv(Run(Start(order), steps[..|steps| - 1]), steps[|steps| - 1]);
    }
  }

  /** The split of an order never changes once it is made. */
  lemma {:induction false} SplitIsFixed(order: Order, steps: seq<Step>, more: seq<Step>)
    requires Run(Start(order), steps).allocation.Some?
    ensures var a, b := Run(Start(order), steps).allocation, Run(Start(order), steps + more).allocation;
      b.Some? && b.value.payable == a.value.payable && b.value.wallet == a.value.wallet && b.value.external == a.value.external
  {
    hide Next;
    if more == [] {
      assert steps + more == steps;
    } else {
      var n := |more| - 1;
      SplitIsFixed(order, steps, more[..n]);
      assert (steps + more)[..|steps| + n] == steps + more[..n];
      SplitKept(Run(Start(order), steps + more[..n]), more[n]);
    }
  }

  lemma SplitKept(s: State, step: Step)
    requires s.allocation.Some?
    ensures var b := Next(s, step).allocation;
      && b.Some? && b.value.payable == s.allocation.value.payable
      && b.value.wallet == s.allocation.value.wallet && b.value.external == s.allocation.value.external
  {
  }
}
