/** Who may approve refunds, and up to how much. An ordinary approver has a limit per
    order and a limit per day that both families of orders share; what exceeds them
    goes to a supervisor. */
module RefundAuthority {
  import opened Wrappers
  import opened Totals

  type Time = int

  // The calendar day of a moment (in seconds) at UTC+8.
  function Day(t: Time): int { (t + 8 * 3600) / (24 * 3600) }

  datatype Family = ProviderOrders | ActivityOrders

  datatype OrderRef = OrderRef(family: Family, id: nat)

  // How a refund came about. Kept for what is said about it; no decision reads it.
  datatype Origin = ByOrdinary(caseNo: nat) | BySupervisor(caseNo: nat) | Otherwise

  datatype RefundRow = RefundRow(order: OrderRef, operator: Option<nat>, amount: nat, createdAt: Time, origin: Origin)

  datatype Limits = Limits(single: nat, daily: nat)

  // An authorised approval that has not been recorded yet. Its transaction holds
  // the operator, the order and the case.
  datatype Approval = Approval(caseNo: nat, order: OrderRef, amount: nat, ordinary: bool, since: Time)

  datatype State = State(
    limits: Limits,
    refunds: seq<RefundRow>,
    escalated: set<nat>,
    approvals: map<nat, Approval>,
    clock: Time)

  // ----- sums -----

  function FamilyDayOf(operator: nat, day: int, family: Family): RefundRow -> int {
    (r: RefundRow) => if r.operator == Some(operator) && Day(r.createdAt) == day && r.order.family == family then r.amount else 0
  }

  function DayOf(operator: nat, day: int): RefundRow -> int {
    (r: RefundRow) => if r.operator == Some(operator) && Day(r.createdAt) == day then r.amount else 0
  }

  function OrderOf(order: OrderRef): RefundRow -> int {
    (r: RefundRow) => if r.order == order then r.amount else 0
  }

  function Usage(s: State, operator: nat, day: int): int { Total(s.refunds, DayOf(operator, day)) }

  function OrderTotal(s: State, order: OrderRef): int { Total(s.refunds, OrderOf(order)) }

  // One query per family, added up.
  function DailyUsage(s: State, operator: nat, now: Time): (n: int)
    ensures n == Usage(s, operator, Day(now))
  {
    FamiliesAddUp(s.refunds, operator, Day(now));
    Total(s.refunds, FamilyDayOf(operator, Day(now), ProviderOrders)) + Total(s.refunds, FamilyDayOf(operator, Day(now), ActivityOrders))
  }

  lemma {:induction false} FamiliesAddUp(rows: seq<RefundRow>, operator: nat, day: int)
    ensures Total(rows, FamilyDayOf(operator, day, ProviderOrders)) + Total(rows, FamilyDayOf(operator, day, ActivityOrders))
            == Total(rows, DayOf(operator, day))
  {
    if rows != [] {
      FamiliesAddUp(rows[..|rows| - 1], operator, day);
    }
  }

  // ----- steps -----

  // Nothing stands in the way of an ordinary approval.
  predicate WithinLimits(s: State, operator: nat, caseNo: nat, order: OrderRef, amount: nat, now: Time) {
    && caseNo !in s.escalated
    && s.limits.single != 0 && s.limits.daily != 0
    && OrderTotal(s, order) + amount <= s.limits.single
    && DailyUsage(s, operator, now) + amount <= s.limits.daily
  }

  predicate OrderHeld(s: State, order: OrderRef) { exists a :: a in s.approvals && s.approvals[a].order == order }

  predicate CaseHeld(s: State, caseNo: nat) { exists a :: a in s.approvals && s.approvals[a].caseNo == caseNo }

  datatype Step =
    | Authorize(operator: nat, supervisor: bool, caseNo: nat, order: OrderRef, amount: nat)
    | Record(operator: nat)
    | Abandon(operator: nat)
    | Escalate(caseNo: nat)
    | OtherRefund(order: OrderRef, actor: Option<nat>, amount: nat)

  // A step at `now`; one that must wait for a held row changes nothing.
  function Next(s: State, step: Step, now: Time): State {
    match step
    case Authorize(operator, supervisor, caseNo, order, amount) =>
      if operator in s.approvals || OrderHeld(s, order) || CaseHeld(s, caseNo) then s.(clock := now)
      else if supervisor then s.(approvals := s.approvals[operator := Approval(caseNo, order, amount, false, now)], clock := now)
      else if WithinLimits(s, operator, caseNo, order, amount, now) then
        s.(approvals := s.approvals[operator := Approval(caseNo, order, amount, true, now)], clock := now)
      else s.(escalated := s.escalated + {caseNo}, clock := now)
    case Record(operator) =>
      if operator !in s.approvals then s.(clock := now)
      else
        var a := s.approvals[operator];
        var origin := if a.ordinary then ByOrdinary(a.caseNo) else BySupervisor(a.caseNo);
        s.(refunds := s.refunds + [RefundRow(a.order, Some(operator), a.amount, now, origin)], approvals := s.approvals - {operator}, clock := now)
    case Abandon(operator) => s.(approvals := s.approvals - {operator}, clock := now)
    case Escalate(caseNo) => if CaseHeld(s, caseNo) then s.(clock := now) else s.(escalated := s.escalated + {caseNo}, clock := now)
    case OtherRefund(order, actor, amount) =>
      if OrderHeld(s, order) then s.(clock := now)
      else s.(refunds := s.refunds + [RefundRow(order, actor, amount, now, Otherwise)], clock := now)
  }

  datatype Event = Event(step: Step, at: Time)

  function Start(limits: Limits, now: Time): State { State(limits, [], {}, map[], now) }

  function Run(s: State, es: seq<Event>): State {
    if es == [] then s else Next(Run(s, es[..|es| - 1]), es[|es| - 1].step, es[|es| - 1].at)
  }

  // Times never go back.
  predicate Ordered(s: State, es: seq<Event>) {
    es != [] ==> Ordered(s, es[..|es| - 1]) && Run(s, es[..|es| - 1]).clock <= es[|es| - 1].at
  }

  // ----- the services -----

  // Why an ordinary approver may not approve.
  datatype Reason = PassedOn | LimitsClosed | OverOrderLimit | OverDailyLimit

  class Authority {
    var limits: Limits
    var refunds: seq<RefundRow>
    var escalated: set<nat>
    var approvals: map<nat, Approval>
    var clock: Time

    function Snapshot(): State
      reads this
    {
      State(limits, refunds, escalated, approvals, clock)
    }

    constructor (limits: Limits, now: Time)
      ensures Snapshot() == Start(limits, now)
    {
      this.limits, refunds, escalated, approvals, clock := limits, [], {}, map[], now;
    }

    method PassOn(caseNo: nat, now: Time)
      requires !CaseHeld(Snapshot(), caseNo)
      modifies `escalated, `clock
      ensures Snapshot() == Next(old(Snapshot()), Escalate(caseNo), now)
    {
      escalated := escalated + {caseNo};
      clock := now;
    }

    /** Called with the rows of the case and the order held; takes hold of the
        operator. Without authority the case is passed on and nothing is approved. */
    method AuthorizeApproval(operator: nat, supervisor: bool, caseNo: nat, order: OrderRef, amount: nat, now: Time)
      returns (refusal: Option<Reason>)
      requires operator !in approvals && !OrderHeld(Snapshot(), order) && !CaseHeld(Snapshot(), caseNo)
      modifies `escalated, `approvals, `clock
      ensures Snapshot() == Next(old(Snapshot()), Authorize(operator, supervisor, caseNo, order, amount), now)
      ensures refusal.None? <==>
        || supervisor
        || (&& caseNo !in old(escalated) && limits.single > 0 && limits.daily > 0
            && Total(refunds, OrderOf(order)) + amount <= limits.single
            && Total(refunds, DayOf(operator, Day(now))) + amount <= limits.daily)
      ensures refusal.None? ==>
        approvals == old(approvals)[operator := Approval(caseNo, order, amount, !supervisor, now)] && escalated == old(escalated)
      ensures refusal.Some? ==> approvals == old(approvals) && escalated == old(escalated) + {caseNo}
    {
      clock := now;
      if supervisor {
        approvals := approvals[operator := Approval(caseNo, order, amount, false, now)];
        return None;
      }
      var reserved := OrderTotal(Snapshot(), order);
      if caseNo in escalated {
        refusal := Some(PassedOn);
      } else if limits.single == 0 || limits.daily == 0 {
        refusal := Some(LimitsClosed);
      } else if reserved + amount > limits.single {
        refusal := Some(OverOrderLimit);
      } else if DailyUsage(Snapshot(), operator, now) + amount > limits.daily {
        refusal := Some(OverDailyLimit);
      } else {
        refusal := None;
      }
      if refusal.Some? {
        PassOn(caseNo, now);
        return;
      }
      approvals := approvals[operator := Approval(caseNo, order, amount, true, now)];
    }

    // The refund is created and the rows are let go.
    method RecordRefund(operator: nat, now: Time)
      requires operator in approvals
      modifies `refunds, `approvals, `clock
      ensures Snapshot() == Next(old(Snapshot()), Record(operator), now)
    {
      var a := approvals[operator];
      var origin := if a.ordinary then ByOrdinary(a.caseNo) else BySupervisor(a.caseNo);
      refunds := refunds + [RefundRow(a.order, Some(operator), a.amount, now, origin)];
      approvals := approvals - {operator};
      clock := now;
    }
  }
}
