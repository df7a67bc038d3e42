/** The register of refunds made by hand after a settlement. It moves no money: it
    records who asked, who paid, with which receipt, and who checked the receipt. */
module ManualRefunds {
  import opened Wrappers
  import opened Totals

  type Time = int

  datatype CaseStatus = Pending | Processing | Reviewing | Completed | Rejected

  datatype Case = Case(
    order: nat,
    requestKey: nat,
    amount: nat,
    reason: nat,
    createdBy: nat,
    status: CaseStatus,
    revision: nat,
    processedBy: Option<nat>,
    reviewedBy: Option<nat>,
    receipt: Option<nat>,
    paidAt: Option<Time>,
    closedAt: Option<Time>)

  predicate IsOpen(c: Case) { c.status in {Pending, Processing, Reviewing} }

  /** What the register reads of an order. `ready` stands for a verified payment of
      an order already settled or distributed, with no refund or after-sales case
      unfinished; `verified` for a distribution whose result is known. */
  datatype Order = Order(payable: nat, automatic: nat, paidAt: Time, ready: bool, verified: bool)

  // `evidence` is the part of the audit log that says who submitted evidence on which case.
  datatype Register = Register(orders: seq<Order>, cases: seq<Case>, evidence: set<(nat, nat)>)

  // ----- queries -----

  function OccupyingOf(order: nat): Case -> int {
    (c: Case) => if c.order == order && c.status != Rejected then c.amount else 0
  }

  function CompletedOf(order: nat): Case -> int {
    (c: Case) => if c.order == order && c.status == Completed then c.amount else 0
  }

  function OpenOf(order: nat): Case -> int {
    (c: Case) => if c.order == order && IsOpen(c) then c.amount else 0
  }

  function Max(x: int, y: int): int { if x < y then y else x }

  function Remaining(r: Register, order: nat): int
    requires order < |r.orders|
  {
    Max(0, r.orders[order].payable - r.orders[order].automatic - Total(r.cases, CompletedOf(order)) - Total(r.cases, OpenOf(order)))
  }

  predicate HasOpenCase(r: Register, order: nat) {
    exists c :: c in r.cases && c.order == order && IsOpen(c)
  }

  predicate HasManualRefund(r: Register, order: nat) {
    exists c :: c in r.cases && c.order == order && c.status != Rejected
  }

  function FindKey(cases: seq<Case>, key: nat): (r: Option<nat>)
    ensures r.Some? ==> r.value < |cases| && cases[r.value].requestKey == key
    ensures r.None? ==> forall c :: c in cases ==> c.requestKey != key
  {
    if cases == [] then None
    else if cases[|cases| - 1].requestKey == key then Some(|cases| - 1)
    else FindKey(cases[..|cases| - 1], key)
  }

  // ----- operations -----

  // A repeated request finds its case; a different one under its key is refused.
  function Create(r: Register, order: nat, key: nat, amount: nat, reason: nat, actor: nat): Result<Register> {
    if order >= |r.orders| then Refused(NoSuchRecord)
    else if amount == 0 then Refused(AmountInvalid)
    else
      var existing := FindKey(r.cases, key);
      if existing.Some? then
        var c := r.cases[existing.value];
        if c.order == order && c.amount == amount && c.reason == reason && c.createdBy == actor then Ok(r) else Refused(IdempotencyConflict)
      else if !r.orders[order].ready then Refused(OrderNotReady)
      else if HasOpenCase(r, order) then Refused(AfterSalesOpen)
      else if Remaining(r, order) < amount then Refused(AmountExceedsRefundable)
      else Ok(r.(cases := r.cases + [Case(order, key, amount, reason, actor, Pending, 1, None, None, None, None, None)]))
  }

  datatype Action = StartWork | SubmitEvidence | Verify | Return | Reject

  // An actor and the authority the actor holds.
  datatype Actor = Actor(id: nat, finance: bool, supervise: bool)

  datatype Evidence = Evidence(receipt: Option<nat>, reference: bool, paidAt: Option<Time>)

  function Actions(r: Register, i: nat, a: Actor): set<Action>
    requires i < |r.cases|
  {
    var c := r.cases[i];
    (if a.finance && c.status == Pending then {StartWork} else {})
    + (if a.finance && c.status == Processing then {SubmitEvidence} else {})
    + (if a.finance && a.supervise && c.status in {Pending, Processing} && c.receipt.None? then {Reject} else {})
    + (if a.finance && a.supervise && c.status == Reviewing && a.id != c.createdBy && c.processedBy != Some(a.id) && (i, a.id) !in r.evidence
       then {Verify, Return} else {})
  }

  predicate ReceiptTaken(r: Register, i: nat, receipt: nat) {
    exists j :: 0 <= j < |r.cases| && j != i && r.cases[j].receipt == Some(receipt)
  }

  function Act(r: Register, i: nat, action: Action, a: Actor, revision: nat, given: Evidence, now: Time): Result<Register> {
    if i >= |r.cases| || r.cases[i].order >= |r.orders| then Refused(NoSuchRecord)
    else
      var c := r.cases[i];
      var o := r.orders[c.order];
      if !a.finance || (action in {Verify, Return, Reject} && !a.supervise) then Refused(PermissionDenied)
      else if revision != c.revision then Refused(RevisionStale)
      else if action !in Actions(r, i, a) then Refused(StatusForbids)
      else
        var done :- match action
          case StartWork => Ok(c.(status := Processing, processedBy := Some(a.id)))
          case SubmitEvidence =>
            if given.receipt.None? || !given.reference || given.paidAt.None? then Refused(EvidenceIncomplete)
            else if !(o.paidAt <= given.paidAt.value <= now) then Refused(TimeImpossible)
            else if c.receipt.Some? && c.receipt != given.receipt then Refused(ReceiptLocked)
            else if !o.verified then Refused(DistributionUnverified)
            else if ReceiptTaken(r, i, given.receipt.value) then Refused(ReceiptUsed)
            else Ok(c.(status := Reviewing, processedBy := Some(a.id), receipt := given.receipt, paidAt := given.paidAt))
          case Return => Ok(c.(status := Processing))
          case Verify =>
            if !o.verified then Refused(DistributionUnverified)
            else Ok(c.(status := Completed, reviewedBy := Some(a.id), closedAt := Some(now)))
          case Reject => Ok(c.(status := Rejected, reviewedBy := Some(a.id), closedAt := Some(now)));
        Ok(r.(cases := r.cases[i := done.(revision := c.revision + 1)],
              evidence := if action == SubmitEvidence then r.evidence + {(i, a.id)} else r.evidence))
  }

  /** What happens to an order elsewhere: its state changes freely, but no automatic
      refund is made once it has a manual one that was not rejected. */
  function ChangeOrder(r: Register, order: nat, refund: nat, ready: bool, verified: bool): Result<Register> {
    if order >= |r.orders| then Refused(NoSuchRecord)
    else if refund != 0 && HasManualRefund(r, order) then Refused(ManualRefundExists)
    else if r.orders[order].automatic + refund > r.orders[order].payable then Refused(AmountExceedsRefundable)
    else
      var o := r.orders[order].(automatic := r.orders[order].automatic + refund, ready := ready, verified := verified);
      Ok(r.(orders := r.orders[order := o]))
  }

  datatype Call =
    | CreateCall(order: nat, key: nat, amount: nat, reason: nat, applicant: nat)
    | ActCall(i: nat, action: Action, actor: Actor, revision: nat, given: Evidence, now: Time)
    | OrderCall(order: nat, refund: nat, ready: bool, verified: bool)

  function Try(r: Register, c: Call): Result<Register> {
    match c
    case CreateCall(order, key, amount, reason, actor) => Create(r, order, key, amount, reason, actor)
    case ActCall(i, action, a, revision, given, now) => Act(r, i, action, a, revision, given, now)
    case OrderCall(order, refund, ready, verified) => ChangeOrder(r, order, refund, ready, verified)
  }

  function Next(r: Register, c: Call): Register {
    var t := Try(r, c);
    if t.Ok? then t.value else r
  }

  function Run(r: Register, calls: seq<Call>): Register {
    if calls == [] then r else Next(Run(r, calls[..|calls| - 1]), calls[|calls| - 1])
  }

  predicate Opening(r: Register) {
    r.cases == [] && r.evidence == {} && forall o :: o in r.orders ==> o.automatic <= o.payable
  }

  // ----- four eyes -----

  predicate CaseOk(r: Register, i: nat)
    requires i < |r.cases|
  {
    var c := r.cases[i];
    && c.order < |r.orders|
    && (c.status == Completed ==>
          && c.reviewedBy.Some? && c.receipt.Some? && c.closedAt.Some?
          && c.reviewedBy.value != c.createdBy
          && (i, c.reviewedBy.value) !in r.evidence)
    && (c.status == Rejected ==> c.receipt.None?)
    && (c.status == Reviewing ==> c.receipt.Some?)
    && (c.status == Pending ==> c.receipt.None? && c.processedBy.None?)
  }

  ghost predicate Inv(r: Register) {
    && (forall i :: 0 <= i < |r.cases| ==> CaseOk(r, i))
    && (forall i, j :: 0 <= i < j < |r.cases| && r.cases[i].receipt.Some? ==> r.cases[i].receipt != r.cases[j].receipt)
    && (forall i, j :: 0 <= i < j < |r.cases| && r.cases[i].order == r.cases[j].order && IsOpen(r.cases[i]) ==> !IsOpen(r.cases[j]))
    && (forall i, j :: 0 <= i < j < |r.cases| ==> r.cases[i].requestKey != r.cases[j].requestKey)
    && (forall p :: p in r.evidence ==> p.0 < |r.cases|)
    && (forall o :: 0 <= o < |r.orders| ==> Covered(r, o))
  }

  // Everything refunded or to be refunded by hand, with what was refunded
  // automatically, is within what was paid.
  predicate Covered(r: Register, order: nat)
    requires order < |r.orders|
  {
    Total(r.cases, OccupyingOf(order)) + r.orders[order].automatic <= r.orders[order].payable
  }

  lemma {:induction false} OccupyingSplits(cases: seq<Case>, order: nat)
    ensures Total(cases, OccupyingOf(order)) == Total(cases, CompletedOf(order)) + Total(cases, OpenOf(order))
  {
    if cases != [] {
      OccupyingSplits(cases[..|cases| - 1], order);
    }
  }

  lemma CreateKeepsInv(r: Register, order: nat, key: nat, amount: nat, reason: nat, actor: nat)
    requires Inv(r) && Create(r, order, key, amount, reason, actor).Ok?
    ensures Inv(Create(r, order, key, amount, reason, actor).value)
  {
    var t := Create(r, order, key, amount, reason, actor).value;
    if t != r {
      var c := t.cases[|r.cases|];
      OccupyingSplits(r.cases, order);
      forall o | 0 <= o < |t.orders|
        ensures Covered(t, o)
      {
        TotalAppend(r.cases, c, OccupyingOf(o));
        assert Covered(r, o);
      }
      hide Covered;
      forall i | 0 <= i < |t.cases|
        ensures CaseOk(t, i)
      {
        if i < |r.cases| {
          assert CaseOk(r, i);
        }
      }
    }
  }

  // One case moves on by one action.
  predicate Moves(r: Register, i: nat, c: Case, evidence: set<(nat, nat)>) {
    && i < |r.cases|
    && c.order == r.cases[i].order && c.amount == r.cases[i].amount && c.createdBy == r.cases[i].createdBy && c.requestKey == r.cases[i].requestKey
    && (IsOpen(c) ==> IsOpen(r.cases[i]))
    && IsOpen(r.cases[i])
    && (c.receipt == r.cases[i].receipt || (r.cases[i].receipt.None? && c.receipt.Some? && !ReceiptTaken(r, i, c.receipt.value)))
    && (forall p :: p in evidence ==> p in r.evidence || p.0 == i)
  }

  lemma MoveKeepsInv(r: Register, i: nat, c: Case, evidence: set<(nat, nat)>)
    requires Inv(r) && Moves(r, i, c, evidence)
    requires CaseOk(r.(cases := r.cases[i := c], evidence := evidence), i)
    ensures Inv(r.(cases := r.cases[i := c], evidence := evidence))
  {
    var t := r.(cases := r.cases[i := c], evidence := evidence);
    forall o | 0 <= o < |t.orders|
      ensures Covered(t, o)
    {
      TotalUpdate(r.cases, i, c, OccupyingOf(o));
      assert Covered(r, o);
    }
    hide Covered;
    forall j | 0 <= j < |t.cases|
      ensures CaseOk(t, j)
    {
      if j != i {
        assert CaseOk(r, j);
      }
    }
  }

  lemma ActKeepsInv(r: Register, i: nat, action: Action, a: Actor, revision: nat, given: Evidence, now: Time)
    requires Inv(r) && Act(r, i, action, a, revision, given, now).Ok?
    ensures Inv(Act(r, i, action, a, revision, given, now).value)
  {
    var t := Act(r, i, action, a, revision, given, now).value;
    assert CaseOk(r, i);
    hide Inv;
    MoveKeepsInv(r, i, t.cases[i], t.evidence);
  }

  lemma ChangeKeepsInv(r: Register, order: nat, refund: nat, ready: bool, verified: bool)
    requires Inv(r) && ChangeOrder(r, order, refund, ready, verified).Ok?
    ensures Inv(ChangeOrder(r, order, refund, ready, verified).value)
  {
    var t := ChangeOrder(r, order, refund, ready, verified).value;
    forall i | 0 <= i < |t.cases|
      ensures CaseOk(t, i)
    {
      assert CaseOk(r, i);
    }
    forall o | 0 <= o < |t.orders|
      ensures Covered(t, o)
    {
      assert Covered(r, o);
      if o == order && refund != 0 {
        NothingOccupied(r, order);
      }
    }
  }

  lemma NothingOccupied(r: Register, order: nat)
    requires !HasManualRefund(r, order)
    ensures Total(r.cases, OccupyingOf(order)) == 0
  {
    TotalIsZero(r.cases, OccupyingOf(order));
  }

  lemma NextKeepsInv(r: Register, c: Call)
    requires Inv(r)
    ensures Inv(Next(r, c))
  {
    hide Inv, Create, Act, ChangeOrder;
    if Try(r, c).Ok? {
      match c
      case CreateCall(order, key, amount, reason, actor) => CreateKeepsInv(r, order, key, amount, reason, actor);
      case ActCall(i, action, a, revision, given, now) => ActKeepsInv(r, i, action, a, revision, given, now);
      case OrderCall(order, refund, ready, verified) => ChangeKeepsInv(r, order, refund, ready, verified);
    }
  }

  lemma OpeningOk(r: Register)
    requires Opening(r)
    ensures Inv(r)
  {
  }

  lemma {:induction false} RunKeepsInv(r: Register, calls: seq<Call>)
    requires Inv(r)
    ensures Inv(Run(r, calls))
  {
    hide Inv, Next;
    if calls != [] {
      RunKeepsInv(r, calls[..|calls| - 1]);
      NextKeepsInv(Run(r, calls[..|calls| - 1]), calls[|calls| - 1]);
    }
  }

  /** Four eyes: a completed case was reviewed by someone who neither asked for the
      refund nor ever submitted evidence on it, and it has a receipt no other case
      has; a rejected case never had one. */
  lemma FourEyes(r: Register, calls: seq<Call>, i: nat)
    requires Opening(r) && i < |Run(r, calls).cases|
    ensures var s := Run(r, calls);
      var c := s.cases[i];
      && (c.status == Completed ==>
            && c.reviewedBy.Some? && c.reviewedBy.value != c.createdBy && (i, c.reviewedBy.value) !in s.evidence
            && c.receipt.Some?)
      && (c.status == Rejected ==> c.receipt.None?)
      && (c.receipt.Some? ==> !ReceiptTaken(s, i, c.receipt.value))
  {
    OpeningOk(r);
    RunKeepsInv(r, calls);
    assert CaseOk(Run(r, calls), i);
    hide Run;
  }

  /** The cases of an order that were not rejected, with its automatic refunds, never
      exceed what was paid for it. */
  lemma NeverOverRefunded(r: Register, calls: seq<Call>, order: nat)
    requires Opening(r) && order < |Run(r, calls).orders|
    ensures var s := Run(r, calls);
      Total(s.cases, OccupyingOf(order)) + s.orders[order].automatic <= s.orders[order].payable
  {
    OpeningOk(r);
    RunKeepsInv(r, calls);
    hide Run;
    assert Covered(Run(r, calls), order);
  }

  // ----- what each call does -----

  // The request was made before, with these very terms.
  predicate MadeBefore(r: Register, order: nat, key: nat, amount: nat, reason: nat, actor: nat) {
    exists c :: c in r.cases && c.requestKey == key && c.order == order && c.amount == amount && c.reason == reason && c.createdBy == actor
  }

  /** Which requests are accepted: one made before, which changes nothing, and a new one of
      an order that is ready, has no case open and is owed that much still. */
  lemma CreateOutcome(r: Register, order: nat, key: nat, amount: nat, reason: nat, actor: nat)
    requires Inv(r)
    ensures var t := Create(r, order, key, amount, reason, actor);
      && (t.Ok? <==>
            && order < |r.orders| && amount > 0
            && (|| MadeBefore(r, order, key, amount, reason, actor)
                || (&& (forall c :: c in r.cases ==> c.requestKey != key)
                    && r.orders[order].ready
                    && (forall c :: c in r.cases && c.order == order ==> c.status == Completed || c.status == Rejected)
                    && Total(r.cases, OccupyingOf(order)) + r.orders[order].automatic + amount <= r.orders[order].payable)))
      && (t.Ok? ==>
            t.value == if MadeBefore(r, order, key, amount, reason, actor) then r
              else r.(cases := r.cases + [Case(order, key, amount, reason, actor, Pending, 1, None, None, None, None, None)]))
  {
    OccupyingSplits(r.cases, order);
    hide Total;
    var existing := FindKey(r.cases, key);
    if existing.Some? {
      assert r.cases[existing.value] in r.cases;
      forall c | c in r.cases && c.requestKey == key
        ensures c == r.cases[existing.value]
      {
        KeyNamesOne(r, c, existing.value);
      }
    }
    hide Inv, FindKey;
    ClosedOrOpen(r, order);
  }

  lemma KeyNamesOne(r: Register, c: Case, i: nat)
    requires Inv(r) && i < |r.cases| && c in r.cases && c.requestKey == r.cases[i].requestKey
    ensures c == r.cases[i]
  {
    var j :| 0 <= j < |r.cases| && r.cases[j] == c;
  }

  lemma ClosedOrOpen(r: Register, order: nat)
    ensures (forall c :: c in r.cases && c.order == order ==> c.status == Completed || c.status == Rejected) <==> !HasOpenCase(r, order)
  {
  }

  // Whoever reviews a case has no hand in it.
  predicate Impartial(r: Register, i: nat, a: Actor)
    requires i < |r.cases|
  {
    a.id != r.cases[i].createdBy && r.cases[i].processedBy != Some(a.id) && (i, a.id) !in r.evidence
  }

  // Evidence of a payment that can have been made, with a receipt no other case has.
  predicate Convincing(r: Register, i: nat, given: Evidence, now: Time)
    requires i < |r.cases| && r.cases[i].order < |r.orders|
  {
    && given.receipt.Some? && given.reference && given.paidAt.Some?
    && r.orders[r.cases[i].order].paidAt <= given.paidAt.value <= now
    && (r.cases[i].receipt.Some? ==> r.cases[i].receipt == given.receipt)
    && (forall j :: 0 <= j < |r.cases| && j != i ==> r.cases[j].receipt != given.receipt)
    && r.orders[r.cases[i].order].verified
  }

  // Who may do what to a case, and when.
  predicate Permitted(r: Register, i: nat, action: Action, a: Actor, given: Evidence, now: Time)
    requires i < |r.cases| && r.cases[i].order < |r.orders|
  {
    && a.finance
    && match action
       case StartWork => r.cases[i].status == Pending
       case SubmitEvidence => r.cases[i].status == Processing && Convincing(r, i, given, now)
       case Verify => a.supervise && r.cases[i].status == Reviewing && Impartial(r, i, a) && r.orders[r.cases[i].order].verified
       case Return => a.supervise && r.cases[i].status == Reviewing && Impartial(r, i, a)
       case Reject => a.supervise && (r.cases[i].status == Pending || r.cases[i].status == Processing) && r.cases[i].receipt.None?
  }

  // A case after an action: the next stage, with what the action puts on record.
  predicate Follows(c: Case, d: Case, action: Action, a: Actor, given: Evidence, now: Time) {
    match action
    case StartWork => d == c.(status := Processing, processedBy := Some(a.id), revision := c.revision + 1)
    case SubmitEvidence =>
      d == c.(status := Reviewing, processedBy := Some(a.id), receipt := given.receipt, paidAt := given.paidAt, revision := c.revision + 1)
    case Verify => d == c.(status := Completed, reviewedBy := Some(a.id), closedAt := Some(now), revision := c.revision + 1)
    case Return => d == c.(status := Processing, revision := c.revision + 1)
    case Reject => d == c.(status := Rejected, reviewedBy := Some(a.id), closedAt := Some(now), revision := c.revision + 1)
  }

  /** An action succeeds exactly if its actor is permitted it and saw the case as it is; it
      then moves that case one stage on, and remembers who submitted evidence. */
  lemma ActOutcome(r: Register, i: nat, action: Action, a: Actor, revision: nat, given: Evidence, now: Time)
    ensures var t := Act(r, i, action, a, revision, given, now);
      && (t.Ok? <==>
            i < |r.cases| && r.cases[i].order < |r.orders| && revision == r.cases[i].revision && Permitted(r, i, action, a, given, now))
      && (t.Ok? ==>
            && |t.value.cases| == |r.cases| && t.value == r.(cases := r.cases[i := t.value.cases[i]], evidence := t.value.evidence)
            && Follows(r.cases[i], t.value.cases[i], action, a, given, now)
            && t.value.evidence == (if action == SubmitEvidence then r.evidence + {(i, a.id)} else r.evidence))
  {
    if i < |r.cases| && given.receipt.Some? {
      assert ReceiptTaken(r, i, given.receipt.value) <==> exists j :: 0 <= j < |r.cases| && j != i && r.cases[j].receipt == given.receipt;
    }
    hide ReceiptTaken;
  }

  /** Elsewhere an order is refunded automatically only while it has no manual refund, and
      never beyond what was paid. */
  lemma OrderOutcome(r: Register, order: nat, refund: nat, ready: bool, verified: bool)
    ensures var t := ChangeOrder(r, order, refund, ready, verified);
      && (t.Ok? <==>
            && order < |r.orders| && r.orders[order].automatic + refund <= r.orders[order].payable
            && (refund > 0 ==> forall c :: c in r.cases && c.order == order ==> c.status == Rejected))
      && (t.Ok? ==> t.value == r.(orders := r.orders[order :=
            r.orders[order].(automatic := r.orders[order].automatic + refund, ready := ready, verified := verified)]))
  {
  }

  // ----- what never changes -----

  predicate Keeps(c: Case, d: Case) {
    && d.order == c.order && d.amount == c.amount && d.createdBy == c.createdBy && d.requestKey == c.requestKey
    && (c.receipt.Some? ==> d.receipt == c.receipt)
    && c.revision <= d.revision
    && (!IsOpen(c) ==> d == c)
  }

  predicate KeepsAll(r: Register, s: Register) {
    && |r.cases| <= |s.cases|
    && (forall i :: 0 <= i < |r.cases| ==> Keeps(r.cases[i], s.cases[i]))
    && r.evidence <= s.evidence
  }

  lemma NextKeepsAll(r: Register, c: Call)
    ensures KeepsAll(r, Next(r, c))
  {
    hide Remaining, HasOpenCase, HasManualRefund, ReceiptTaken;
  }

  lemma KeepsAllTransitive(r: Register, s: Register, t: Register)
    requires KeepsAll(r, s) && KeepsAll(s, t)
    ensures KeepsAll(r, t)
  {
    forall i | 0 <= i < |r.cases|
      ensures Keeps(r.cases[i], t.cases[i])
    {
      assert Keeps(r.cases[i], s.cases[i]) && Keeps(s.cases[i], t.cases[i]);
    }
  }

  /** From any point of any run on, a receipt once entered never changes, evidence is
      never forgotten, and a case completed or rejected never changes again. */
  lemma {:induction false} ReceiptsNeverChange(r: Register, calls: seq<Call>)
    ensures KeepsAll(r, Run(r, calls))
  {
    hide Next, KeepsAll;
    if calls == [] {
      assert KeepsAll(r, r) by { KeepsAllSelf(r); }
    } else {
      ReceiptsNeverChange(r, calls[..|calls| - 1]);
      NextKeepsAll(Run(r, calls[..|calls| - 1]), calls[|calls| - 1]);
      KeepsAllTransitive(r, Run(r, calls[..|calls| - 1]), Run(r, calls));
    }
  }

  lemma KeepsAllSelf(r: Register)
    ensures KeepsAll(r, r)
  {
  }

  /** Of two people acting on the same revision of a case, only the first succeeds. */
  lemma StaleActionRefused(r: Register, i: nat, action: Action, a: Actor, revision: nat, given: Evidence, now: Time,
    other: Action, b: Actor, given': Evidence, now': Time)
    requires Act(r, i, action, a, revision, given, now).Ok?
    ensures Act(Act(r, i, action, a, revision, given, now).value, i, other, b, revision, given', now').Refused?
  {
    hide Actions, ReceiptTaken;
  }

  // ----- the services -----

  class Desk {
    var orders: seq<Order>
    var cases: seq<Case>
    var evidence: set<(nat, nat)>

    function Snapshot(): Register
      reads this
    {
      Register(orders, cases, evidence)
    }

    predicate Answers(t: Result<Register>, was: Register, refusal: Option<Refusal>)
      reads this
    {
      match t
      case Ok(r) => refusal.None? && Snapshot() == r
      case Refused(reason) => refusal == Some(reason) && Snapshot() == was
    }

    constructor (orders: seq<Order>)
      ensures Snapshot() == Register(orders, [], {})
    {
      this.orders, cases, evidence := orders, [], {};
    }

    method CreateCase(order: nat, key: nat, amount: nat, reason: nat, actor: nat) returns (refusal: Option<Refusal>)
      modifies `cases
      ensures Answers(Create(old(Snapshot()), order, key, amount, reason, actor), old(Snapshot()), refusal)
    {
      if order >= |orders| {
        return Some(NoSuchRecord);
      }
      if amount == 0 {
        return Some(AmountInvalid);
      }
      var existing := FindKey(cases, key);
      if existing.Some? {
        var c := cases[existing.value];
        return if c.order == order && c.amount == amount && c.reason == reason && c.createdBy == actor then None else Some(IdempotencyConflict);
      }
      if !orders[order].ready {
        return Some(OrderNotReady);
      }
      if HasOpenCase(Snapshot(), order) {
        return Some(AfterSalesOpen);
      }
      if amount > Remaining(Snapshot(), order) {
        return Some(AmountExceedsRefundable);
      }
      cases := cases + [Case(order, key, amount, reason, actor, Pending, 1, None, None, None, None, None)];
      return None;
    }

    method ActOn(i: nat, action: Action, actor: Actor, revision: nat, given: Evidence, now: Time) returns (refusal: Option<Refusal>)
      modifies `cases, `evidence
      ensures Answers(Act(old(Snapshot()), i, action, actor, revision, given, now), old(Snapshot()), refusal)
    {
      hide Actions, ReceiptTaken;
      if i >= |cases| || cases[i].order >= |orders| {
        return Some(NoSuchRecord);
      }
      var c := cases[i];
      var o := orders[c.order];
      if !actor.finance || (action in {Verify, Return, Reject} && !actor.supervise) {
        return Some(PermissionDenied);
      }
      if revision != c.revision {
        return Some(RevisionStale);
      }
      if action !in Actions(Snapshot(), i, actor) {
        return Some(StatusForbids);
      }
      match action {
        case StartWork =>
          c := c.(status := Processing, processedBy := Some(actor.id));
        case SubmitEvidence =>
          if given.receipt.None? || !given.reference || given.paidAt.None? {
            return Some(EvidenceIncomplete);
          }
          if given.paidAt.value < o.paidAt || now < given.paidAt.value {
            return Some(TimeImpossible);
          }
          if c.receipt.Some? && c.receipt != given.receipt {
            return Some(ReceiptLocked);
          }
          if !o.verified {
            return Some(DistributionUnverified);
          }
          if ReceiptTaken(Snapshot(), i, given.receipt.value) {
            return Some(ReceiptUsed);
          }
          c := c.(receipt := given.receipt, paidAt := given.paidAt);
          c := c.(status := Reviewing, processedBy := Some(actor.id));
        case Return =>
          c := c.(status := Processing);
        case Verify =>
          if !o.verified {
            return Some(DistributionUnverified);
          }
          c := c.(status := Completed, reviewedBy := Some(actor.id), closedAt := Some(now));
        case Reject =>
          c := c.(status := Rejected, reviewedBy := Some(actor.id), closedAt := Some(now));
      }
      c := c.(revision := c.revision + 1);
      cases := cases[i := c];
      if action == SubmitEvidence {
        evidence := evidence + {(i, actor.id)};
      }
      return None;
    }
  }
}
