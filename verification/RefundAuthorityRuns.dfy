/** What the limits on refund approvals keep over every run. */
module RefundAuthorityRuns {
  import opened Wrappers
  import opened Totals
  import opened RefundAuthority

  // ----- one step -----

  /** The day changes at midnight in UTC+8, and nowhere else. */
  lemma LocalMidnight(t: Time)
    ensures Day(t) == Day(t - 1) + (if t % (24 * 3600) == 16 * 3600 then 1 else 0)
  {
  }

  // Nobody's unrecorded approval holds the operator, the order or the case.
  predicate Free(s: State, operator: nat, caseNo: nat, order: OrderRef) {
    forall op :: op in s.approvals ==> op != operator && s.approvals[op].order != order && s.approvals[op].caseNo != caseNo
  }

  /** An approval is authorised exactly if it holds nothing another one holds and is given
      by a supervisor, or stays within both limits on a case not passed on. Otherwise the
      case is passed on, or the request waits; nothing else changes. */
  lemma AuthorisedIff(s: State, operator: nat, supervisor: bool, caseNo: nat, order: OrderRef, amount: nat, now: Time)
    ensures var t := Next(s, Authorize(operator, supervisor, caseNo, order, amount), now);
      var within :=
        && caseNo !in s.escalated && s.limits.single > 0 && s.limits.daily > 0
        && Total(s.refunds, OrderOf(order)) + amount <= s.limits.single
        && Total(s.refunds, DayOf(operator, Day(now))) + amount <= s.limits.daily;
      && t == s.(approvals := t.approvals, escalated := t.escalated, clock := now)
      && t.approvals ==
           (if Free(s, operator, caseNo, order) && (supervisor || within) then
              s.approvals[operator := Approval(caseNo, order, amount, !supervisor, now)]
            else s.approvals)
      && t.escalated == (if Free(s, operator, caseNo, order) && !supervisor && !within then s.escalated + {caseNo} else s.escalated)
  {
    hide Day, Total;
  }

  /** Recording an approval adds its amount to its operator's day and to its order, and
      to no other; nothing is added without one. */
  lemma RecordCounts(s: State, operator: nat, now: Time)
    ensures var t := Next(s, Record(operator), now);
      && t.approvals == s.approvals - {operator} && t.escalated == s.escalated
      && (operator !in s.approvals ==> t.refunds == s.refunds)
      && (operator in s.approvals ==>
            && |t.refunds| == |s.refunds| + 1 && s.refunds <= t.refunds
            && (t.refunds[|s.refunds|].origin.ByOrdinary? <==> s.approvals[operator].ordinary)
            && (forall op, day :: Usage(t, op, day) ==
                  Usage(s, op, day) + (if op == operator && day == Day(now) then s.approvals[operator].amount else 0))
            && (forall order :: OrderTotal(t, order) ==
                  OrderTotal(s, order) + (if order == s.approvals[operator].order then s.approvals[operator].amount else 0)))
  {
    var t := Next(s, Record(operator), now);
    if operator in s.approvals {
      RowAdded(s, t.refunds[|s.refunds|], t);
      hide Usage, OrderTotal, Day;
    }
  }

  // ----- the budget -----

  // All of this operator's refunds came from ordinary approvals.
  predicate OnlyOrdinary(s: State, operator: nat) {
    forall r :: r in s.refunds && r.operator == Some(operator) ==> r.origin.ByOrdinary?
  }

  ghost predicate WithinBudget(s: State, operator: nat) {
    forall day :: Usage(s, operator, day) <= s.limits.daily
  }

  predicate ApprovalOk(s: State, operator: nat, a: Approval) {
    && a.since <= s.clock
    && (a.ordinary ==>
          && a.caseNo !in s.escalated
          && OrderTotal(s, a.order) + a.amount <= s.limits.single
          && (OnlyOrdinary(s, operator) ==>
                && Usage(s, operator, Day(a.since)) + a.amount <= s.limits.daily
                && forall r :: r in s.refunds && r.operator == Some(operator) ==> r.createdAt <= a.since))
  }

  ghost predicate Inv(s: State) {
    && (forall r :: r in s.refunds ==> r.createdAt <= s.clock)
    && (forall op :: op in s.approvals ==> ApprovalOk(s, op, s.approvals[op]))
    && (forall op, other :: op in s.approvals && other in s.approvals && op != other ==>
          s.approvals[op].order != s.approvals[other].order && s.approvals[op].caseNo != s.approvals[other].caseNo)
    && (forall op :: OnlyOrdinary(s, op) ==> WithinBudget(s, op))
  }

  lemma DayMonotone(t: Time, u: Time)
    requires t <= u
    ensures Day(t) <= Day(u)
  {
  }

  // Nothing was recorded by this operator on a day after the given moment.
  lemma NothingLater(s: State, operator: nat, since: Time, day: int)
    requires forall r :: r in s.refunds && r.operator == Some(operator) ==> r.createdAt <= since
    requires Day(since) < day
    ensures Usage(s, operator, day) == 0
  {
    forall r | r in s.refunds
      ensures DayOf(operator, day)(r) == 0
    {
      if r.operator == Some(operator) {
        DayMonotone(r.createdAt, since);
      }
    }
    TotalIsZero(s.refunds, DayOf(operator, day));
  }

  // One more refund row.
  lemma RowAdded(s: State, row: RefundRow, t: State)
    requires t.refunds == s.refunds + [row]
    ensures forall op, day :: Usage(t, op, day) == Usage(s, op, day) + DayOf(op, day)(row)
    ensures forall order :: OrderTotal(t, order) == OrderTotal(s, order) + OrderOf(order)(row)
    ensures forall op :: OnlyOrdinary(t, op) ==> OnlyOrdinary(s, op)
    ensures forall r :: r in t.refunds <==> r in s.refunds || r == row
  {
    forall op, day
      ensures Usage(t, op, day) == Usage(s, op, day) + DayOf(op, day)(row)
    {
      TotalAppend(s.refunds, row, DayOf(op, day));
    }
    forall order
      ensures OrderTotal(t, order) == OrderTotal(s, order) + OrderOf(order)(row)
    {
      TotalAppend(s.refunds, row, OrderOf(order));
    }
    forall op | OnlyOrdinary(t, op)
      ensures OnlyOrdinary(s, op)
    {
      assert forall r :: r in s.refunds ==> r in t.refunds;
    }
  }

  // The refund of an ordinary approval fits the day it is recorded on, which may be
  // the day after it was checked.
  lemma RecordFits(s: State, operator: nat, now: Time)
    requires Inv(s) && operator in s.approvals && s.approvals[operator].ordinary && s.clock <= now && OnlyOrdinary(s, operator)
    ensures Usage(s, operator, Day(now)) + s.approvals[operator].amount <= s.limits.daily
  {
    var a := s.approvals[operator];
    assert ApprovalOk(s, operator, a);
    DayMonotone(a.since, now);
    if Day(a.since) < Day(now) {
      NothingLater(s, operator, a.since, Day(now));
      UsageNonNegative(s, operator, Day(a.since));
    }
  }

  lemma UsageNonNegative(s: State, operator: nat, day: int)
    ensures Usage(s, operator, day) >= 0
  {
    TotalNonNegative(s.refunds, DayOf(operator, day));
  }

  lemma RecordKeepsInv(s: State, operator: nat, now: Time)
    requires Inv(s) && s.clock <= now && operator in s.approvals
    ensures Inv(Next(s, Record(operator), now))
  {
    var t := Next(s, Record(operator), now);
    var a := s.approvals[operator];
    var row := t.refunds[|s.refunds|];
    RowAdded(s, row, t);
    hide Usage, OrderTotal, Day, OnlyOrdinary;
    forall op | OnlyOrdinary(t, op)
      ensures WithinBudget(t, op)
    {
      if op == operator {
        assert a.ordinary by { OnlyOrdinaryRow(t, row, op); }
        RecordFits(s, operator, now);
      }
      assert WithinBudget(s, op);
    }
    forall op | op in t.approvals
      ensures ApprovalOk(t, op, t.approvals[op])
    {
      assert ApprovalOk(s, op, s.approvals[op]);
    }
  }

  lemma OnlyOrdinaryRow(t: State, row: RefundRow, op: nat)
    requires OnlyOrdinary(t, op) && row in t.refunds && row.operator == Some(op)
    ensures row.origin.ByOrdinary?
  {
  }

  lemma OtherKeepsInv(s: State, order: OrderRef, actor: Option<nat>, amount: nat, now: Time)
    requires Inv(s) && s.clock <= now
    ensures Inv(Next(s, OtherRefund(order, actor, amount), now))
  {
    var t := Next(s, OtherRefund(order, actor, amount), now);
    if OrderHeld(s, order) {
      ClockKeepsInv(s, t);
    } else {
      var row := t.refunds[|s.refunds|];
      RowAdded(s, row, t);
      assert forall op: nat :: OnlyOrdinary(t, op) ==> actor != Some(op) by {
        forall op: nat | OnlyOrdinary(t, op) && actor == Some(op)
          ensures false
        {
          OnlyOrdinaryRow(t, row, op);
        }
      }
      hide Usage, OrderTotal, Day, OnlyOrdinary;
      forall op | op in t.approvals
        ensures ApprovalOk(t, op, t.approvals[op])
      {
        assert ApprovalOk(s, op, s.approvals[op]);
      }
      forall op | OnlyOrdinary(t, op)
        ensures WithinBudget(t, op)
      {
        assert WithinBudget(s, op);
      }
    }
  }

  lemma ClockKeepsInv(s: State, t: State)
    requires Inv(s) && s.clock <= t.clock && t.refunds == s.refunds && t.limits == s.limits
    requires t.approvals.Keys <= s.approvals.Keys && forall op :: op in t.approvals ==> t.approvals[op] == s.approvals[op]
    requires s.escalated <= t.escalated
    requires forall op :: op in t.approvals ==> t.approvals[op].caseNo !in t.escalated - s.escalated
    ensures Inv(t)
  {
    assert forall op, day :: Usage(t, op, day) == Usage(s, op, day);
    assert forall order :: OrderTotal(t, order) == OrderTotal(s, order);
    assert forall op :: OnlyOrdinary(t, op) == OnlyOrdinary(s, op);
    hide Usage, OrderTotal, Day, OnlyOrdinary;
    forall op | op in t.approvals
      ensures ApprovalOk(t, op, t.approvals[op])
    {
      assert ApprovalOk(s, op, s.approvals[op]);
    }
    forall op | OnlyOrdinary(t, op)
      ensures WithinBudget(t, op)
    {
      assert WithinBudget(s, op);
    }
  }

  lemma AuthorizeKeepsInv(s: State, operator: nat, supervisor: bool, caseNo: nat, order: OrderRef, amount: nat, now: Time)
    requires Inv(s) && s.clock <= now
    ensures Inv(Next(s, Authorize(operator, supervisor, caseNo, order, amount), now))
  {
    var t := Next(s, Authorize(operator, supervisor, caseNo, order, amount), now);
    if operator in s.approvals || operator !in t.approvals {
      hide WithinLimits;
      assert CaseHeld(s, caseNo) || forall op :: op in s.approvals ==> s.approvals[op].caseNo != caseNo;
      ClockKeepsInv(s, t);
    } else {
      ClockKeepsInv(s, s.(clock := now));
      NewApproval(s.(clock := now), operator, t.approvals[operator], t);
    }
  }

  lemma NewApproval(s: State, operator: nat, a: Approval, t: State)
    requires Inv(s) && operator !in s.approvals && t == s.(approvals := s.approvals[operator := a]) && a.since == s.clock
    requires !OrderHeld(s, a.order) && !CaseHeld(s, a.caseNo)
    requires a.ordinary ==> WithinLimits(s, operator, a.caseNo, a.order, a.amount, a.since)
    ensures Inv(t)
  {
    assert forall op, day :: Usage(t, op, day) == Usage(s, op, day);
    assert forall order :: OrderTotal(t, order) == OrderTotal(s, order);
    assert forall op :: OnlyOrdinary(t, op) == OnlyOrdinary(s, op);
    hide Usage, OrderTotal, Day, OnlyOrdinary;
    forall op | op in t.approvals
      ensures ApprovalOk(t, op, t.approvals[op])
    {
      assert op != operator ==> ApprovalOk(s, op, s.approvals[op]);
    }
    forall op | OnlyOrdinary(t, op)
      ensures WithinBudget(t, op)
    {
      assert WithinBudget(s, op);
    }
    assert forall op :: op in s.approvals ==> s.approvals[op].order != a.order && s.approvals[op].caseNo != a.caseNo;
  }

  lemma NextKeepsInv(s: State, step: Step, now: Time)
    requires Inv(s) && s.clock <= now
    ensures Inv(Next(s, step, now))
  {
    match step
    case Authorize(operator, supervisor, caseNo, order, amount) => AuthorizeKeepsInv(s, operator, supervisor, caseNo, order, amount, now);
    case Record(operator) =>
      if operator in s.approvals {
        RecordKeepsInv(s, operator, now);
      } else {
        ClockKeepsInv(s, Next(s, step, now));
      }
    case Abandon(operator) => ClockKeepsInv(s, Next(s, step, now));
    case Escalate(caseNo) =>
      assert CaseHeld(s, caseNo) || forall op :: op in s.approvals ==> s.approvals[op].caseNo != caseNo;
      ClockKeepsInv(s, Next(s, step, now));
    case OtherRefund(order, actor, amount) => OtherKeepsInv(s, order, actor, amount, now);
  }

  lemma {:induction false} RunKeepsInv(limits: Limits, start: Time, es: seq<Event>)
    requires Ordered(Start(limits, start), es)
    ensures Inv(Run(Start(limits, start), es)) && Run(Start(limits, start), es).limits == limits
  {
    hide Next, Inv;
    var s0 := Start(limits, start);
    if es == [] {
      StartOk(limits, start);
    } else {
      var n := |es| - 1;
      RunKeepsInv(limits, start, es[..n]);
      NextKeepsInv(Run(s0, es[..n]), es[n].step, es[n].at);
      LimitsStay(Run(s0, es[..n]), es[n].step, es[n].at);
    }
  }

  lemma StartOk(limits: Limits, start: Time)
    ensures Inv(Start(limits, start))
  {
  }

  lemma LimitsStay(s: State, step: Step, now: Time)
    ensures Next(s, step, now).limits == s.limits && s.escalated <= Next(s, step, now).escalated
  {
    hide WithinLimits;
  }

  /** However approvals interleave, and even when midnight falls between the check
      and the record, an operator whose refunds all come from ordinary approvals stays
      within the daily limit on every day, over both families of orders. */
  lemma DailyLimitHolds(limits: Limits, start: Time, es: seq<Event>, operator: nat, day: int)
    requires Ordered(Start(limits, start), es)
    requires OnlyOrdinary(Run(Start(limits, start), es), operator)
    ensures Usage(Run(Start(limits, start), es), operator, day) <= limits.daily
  {
    RunKeepsInv(limits, start, es);
    hide Run, Usage;
    assert WithinBudget(Run(Start(limits, start), es), operator);
  }

  /** An ordinary approval, when it is recorded, leaves its order within the limit per
      order, and is never given for a case that has been passed on. */
  lemma OrderLimitHolds(limits: Limits, start: Time, es: seq<Event>, operator: nat, now: Time)
    requires Ordered(Start(limits, start), es)
    requires var s := Run(Start(limits, start), es); s.clock <= now && operator in s.approvals && s.approvals[operator].ordinary
    ensures var s := Run(Start(limits, start), es);
      var t := Next(s, Record(operator), now);
      && OrderTotal(t, s.approvals[operator].order) <= limits.single
      && s.approvals[operator].caseNo !in s.escalated
  {
    RunKeepsInv(limits, start, es);
    var s := Run(Start(limits, start), es);
    hide Run;
    assert ApprovalOk(s, operator, s.approvals[operator]);
    var t := Next(s, Record(operator), now);
    RowAdded(s, t.refunds[|s.refunds|], t);
  }

  // Ordinary refunds of one case.
  function OrdinaryOf(caseNo: nat): RefundRow -> int {
    (r: RefundRow) => if r.origin == ByOrdinary(caseNo) then 1 else 0
  }

  lemma EscalatedStep(s: State, step: Step, now: Time, caseNo: nat)
    requires Inv(s) && caseNo in s.escalated
    ensures Total(Next(s, step, now).refunds, OrdinaryOf(caseNo)) == Total(s.refunds, OrdinaryOf(caseNo))
  {
    var t := Next(s, step, now);
    if t.refunds != s.refunds {
      var row := t.refunds[|s.refunds|];
      TotalAppend(s.refunds, row, OrdinaryOf(caseNo));
      if step.Record? {
        assert ApprovalOk(s, step.operator, s.approvals[step.operator]);
      }
    }
  }

  /** Once a case has been passed to a supervisor, no ordinary approval ever refunds it. */
  lemma {:induction false} EscalatedForGood(limits: Limits, start: Time, es: seq<Event>, k: nat, caseNo: nat)
    requires Ordered(Start(limits, start), es) && k <= |es|
    requires caseNo in Run(Start(limits, start), es[..k]).escalated
    ensures var s := Run(Start(limits, start), es);
      && caseNo in s.escalated
      && Total(s.refunds, OrdinaryOf(caseNo)) == Total(Run(Start(limits, start), es[..k]).refunds, OrdinaryOf(caseNo))
  {
    hide Next, Inv;
    if k == |es| {
      assert es[..k] == es;
    } else {
      var s0, n := Start(limits, start), |es| - 1;
      assert es[..n][..k] == es[..k];
      EscalatedForGood(limits, start, es[..n], k, caseNo);
      RunKeepsInv(limits, start, es[..n]);
      EscalatedStep(Run(s0, es[..n]), es[n].step, es[n].at, caseNo);
      LimitsStay(Run(s0, es[..n]), es[n].step, es[n].at);
    }
  }
}
