/** The services as they run: a desk holds the tables of one activity, and each
    service fetches rows, changes them step by step and saves them. A service that
    refuses leaves the tables as they were. */
module ActivityDesks {
  import opened Wrappers
  import opened Totals
  import opened WalletAllocations
  import opened PaymentOrders
  import opened Participations
  import opened Settlements
  import opened SettlementProofs
  import opened Activities
  import opened ActivityInvariants
  import opened ActivitySteps
  import opened ActivityHistory

  class ActivityDesk {
    var terms: Terms
    var status: ActivityStatus
    var publishedAt: Time
    var publish: PublishOrder
    var participations: seq<Participation>
    var settlement: Option<Settlement>

    function State(): Book
      reads this
    {
      Book(terms, status, publishedAt, publish, participations, settlement)
    }

    // The service did what `r` says, or refused for the reason `r` gives.
    predicate Answers(r: Result<Book>, was: Book, refusal: Option<Refusal>)
      reads this
    {
      match r
      case Ok(b) => refusal.None? && State() == b
      case Refused(reason) => refusal == Some(reason) && State() == was
    }

    constructor (terms: Terms, publish: PublishOrder)
      ensures this.terms == terms && this.publish == publish && status == UnderReview
      ensures participations == [] && settlement.None?
    {
      this.terms, this.publish := terms, publish;
      status, publishedAt, participations, settlement := UnderReview, 0, [], None;
    }

    method SyncFormation(now: Time)
      modifies `status
      ensures State() == Sync(old(State()), now)
    {
      if status !in {Recruiting, Formed} {
        return;
      }
      var count := ActiveCount(State());
      var target := status;
      if count >= terms.minParticipants {
        target := Formed;
      } else if status == Formed && terms.formationDeadline > now {
        target := Recruiting;
      }
      if target != status {
        status := target;
      }
    }

    // ----- sign-up and hold expiry -----

    method CloseOrder(i: nat, o: nat)
      requires i < |participations| && o < |participations[i].orders|
      modifies `participations
      ensures var p := old(participations[i]);
        participations == old(participations)[i := p.(orders := p.orders[o := Close(p.orders[o])])]
    {
      var row := participations[i];
      var order := row.orders[o];
      if order.status == PaymentOrders.PendingPayment {
        order := order.(status := PaymentOrders.Closed);
        if order.allocation.Some? {
          order := order.(allocation := Some(Release(order.allocation.value)));
        }
        order := order.(compensation := true);
      }
      participations := participations[i := row.(orders := row.orders[o := order])];
    }

    method ExpireOrder(i: nat, o: nat, now: Time) returns (expired: bool)
      requires i < |participations| && o < |participations[i].orders|
      modifies `participations
      ensures participations == old(participations)[i := ExpireOne(old(participations[i]), o, now)]
      ensures |participations[i].orders| == |old(participations[i].orders)|
      ensures expired <==> IsDue(old(participations[i].orders[o]), now)
    {
      expired := IsDue(participations[i].orders[o], now);
      if expired {
        CloseOrder(i, o);
        if participations[i].status == Awaiting {
          participations := participations[i := participations[i].(status := Expired, holdUntil := None)];
        }
      }
    }

    method ExpireRow(i: nat, now: Time) returns (expired: nat)
      requires i < |participations|
      modifies `participations
      ensures participations == old(participations)[i := ExpireDue(old(participations[i]), now)]
    {
      hide ExpireOne;
      ghost var was := participations;
      expired := 0;
      var o := 0;
      while o < |participations[i].orders|
        invariant |participations| == |was| && o <= |participations[i].orders| == |was[i].orders|
        invariant participations == was[i := ExpireFirst(was[i], o, now)]
      {
        var due := ExpireOrder(i, o, now);
        if due {
          expired := expired + 1;
        }
        o := o + 1;
      }
    }

    // Sweeps the open orders whose hold is over.
    method ExpirePending(now: Time) returns (expired: nat)
      modifies `participations
      ensures participations == ExpireRows(old(participations), now)
    {
      hide ExpireDue;
      ghost var was := participations;
      expired := 0;
      var i := 0;
      while i < |participations|
        invariant i <= |participations| == |was|
        invariant participations[..i] == ExpireRows(was[..i], now) && participations[i..] == was[i..]
      {
        var n := ExpireRow(i, now);
        expired := expired + n;
        assert was[..i + 1][..i] == was[..i];
        i := i + 1;
      }
      assert was[..|was|] == was;
    }

    method SignUp(user: nat, eligible: bool, cityOpen: bool, timeout: nat, now: Time) returns (refusal: Option<Refusal>)
      modifies `participations
      ensures Answers(Activities.SignUp(old(State()), user, eligible, cityOpen, timeout, now), old(State()), refusal)
    {
      hide ExpireRows, OccupiedCount;
      if !eligible || status !in {Recruiting, Formed} || terms.formationDeadline <= now {
        return Some(SignUpClosed);
      }
      var saved := participations;
      var _ := ExpirePending(now);
      var found := FindUser(participations, user);
      if found.Some? && participations[found.value].status == Active {
        if HasRefundable(participations[found.value]) {
          return None;
        }
        participations := saved;
        return Some(PaymentMissing);
      }
      if found.Some? && HasLiveOrder(participations[found.value], now) {
        return None;
      }
      if !cityOpen {
        participations := saved;
        return Some(CityClosed);
      }
      if OccupiedCount(State(), now) >= terms.capacity {
        participations := saved;
        return Some(SeatsFull);
      }
      var expiresAt := now + timeout;
      var order := NewOrder(terms.principal, terms.fee, expiresAt);
      if found.Some? {
        var row := participations[found.value];
        row := row.(status := Awaiting, principal := terms.principal, fee := terms.fee, holdUntil := Some(expiresAt));
        row := row.(orders := row.orders + [order]);
        participations := participations[found.value := row];
      } else {
        participations := participations + [Participation(user, Awaiting, terms.principal, terms.fee, Some(expiresAt), [order], [])];
      }
      return None;
    }

    // ----- refunds and payments -----

    method CreateRefund(i: nat, o: nat, key: RefundKey, principal: int, fee: int, retained: int, toOrganizer: bool)
      returns (r: Result<RefundRef>)
      requires i < |participations| && o < |participations[i].orders|
      modifies `participations
      ensures match Participations.CreateRefund(old(participations[i]), o, key, principal, fee, retained, toOrganizer)
        case Ok(outcome) => r == Ok(outcome.ref) && participations == old(participations)[i := outcome.participation]
        case Refused(reason) => r == Refused(reason) && participations == old(participations)
    {
      var row := participations[i];
      var order := row.orders[o];
      var existing := FindKey(row.orders, key);
      if existing.Some? {
        var refund := row.orders[existing.value.order].refunds[existing.value.refund];
        if existing.value.order != o || refund.principal + refund.fee != principal + fee {
          return Refused(IdempotencyConflict);
        }
        return Ok(existing.value);
      }
      if principal < 0 || fee < 0 {
        return Refused(AmountInvalid);
      }
      if principal > order.principal - ReservedPrincipal(order) {
        return Refused(AmountExceedsRefundable);
      }
      if fee > order.fee - ReservedFee(order) {
        return Refused(AmountExceedsRefundable);
      }
      var legs :- Route(order.allocation, principal + fee, ReservedAmount(order), Total(order.refunds, WalletOf));
      var initial := if principal + fee == 0 then RefundSucceeded else RefundPending;
      var refund := Refund(key, principal, fee, legs.wallet, legs.external, retained, toOrganizer, initial, false);
      var ref := RefundRef(o, |order.refunds|);
      order := order.(refunds := order.refunds + [refund]);
      participations := participations[i := row.(orders := row.orders[o := order])];
      return Ok(ref);
    }

    // Marks an order paid and spends or releases its wallet part; for a late payment,
    // what the channel took.
    method MarkPaid(i: nat, o: nat, paidAt: Time, late: bool) returns (r: Result<nat>)
      requires i < |participations| && o < |participations[i].orders|
      modifies `participations
      ensures var p := old(participations[i]);
        if late then
          r == Ok(Captured(p.orders[o])) && participations == old(participations)[i := p.(orders := p.orders[o := PayLate(p.orders[o], paidAt)])]
        else
          match PayInTime(p.orders[o], paidAt)
          case Ok(order) => r.Ok? && participations == old(participations)[i := p.(orders := p.orders[o := order])]
          case Refused(reason) => r == Refused(reason) && participations == old(participations)
    {
      var row := participations[i];
      var order := row.orders[o];
      var captured := order.Payable();
      if order.allocation.Some? {
        var allocation := order.allocation.value;
        if late {
          captured := allocation.external;
          if allocation.status == Held {
            order := order.(allocation := Some(Release(allocation)));
          }
        } else if allocation.status == Held {
          var consumed :- Consume(allocation);
          order := order.(allocation := Some(consumed));
        } else if allocation.walletReleased {
          return Refused(WalletConflict);
        }
      }
      order := order.(status := Paid, paidAt := Some(paidAt));
      participations := participations[i := row.(orders := row.orders[o := order])];
      return Ok(captured);
    }

    // A success the channel (or the wallet) reports for an order.
    method ApplyPaymentSuccess(i: nat, o: nat, paidAt: Time, now: Time) returns (refusal: Option<Refusal>)
      modifies `participations, `status
      ensures Answers(RecordSuccess(old(State()), i, o, paidAt, now), old(State()), refusal)
    {
      hide Sync, Participations.CreateRefund, PayInTime, PayLate, Captured;
      if i >= |participations| || o >= |participations[i].orders| {
        return Some(NoSuchRecord);
      }
      var saved := participations;
      var row := participations[i];
      var order := row.orders[o];
      if order.IsPaid() {
        assert participations[i := row] == participations;
        return None;
      }
      var late := order.status == PaymentOrders.Closed || order.expiresAt <= paidAt || row.status in {Participations.Cancelled, Expired};
      var captured := MarkPaid(i, o, paidAt, late);
      if captured.Refused? {
        return Some(captured.reason);
      }
      if !late {
        participations := participations[i := participations[i].(status := Active, holdUntil := None)];
        assert participations == saved[i := participations[i]];
        SyncFormation(now);
        return None;
      }
      var principal := Min(order.principal, captured.value);
      var refund := CreateRefund(i, o, TimeoutKey(o), principal, captured.value - principal, 0, false);
      if refund.Refused? {
        participations := saved;
        return Some(refund.reason);
      }
      assert participations == saved[i := participations[i]];
      return None;
    }

    method OpenPayment(user: nat, available: nat, externalOnly: bool, now: Time) returns (refusal: Option<Refusal>)
      modifies `participations, `status
      ensures Answers(Activities.OpenPayment(old(State()), user, available, externalOnly, now), old(State()), refusal)
    {
      hide RecordSuccess, FindUser;
      var found := FindUser(participations, user);
      if found.None? || participations[found.value].orders == [] {
        return Some(NoSuchRecord);
      }
      var i := found.value;
      var saved := participations;
      var o := |participations[i].orders| - 1;
      var order := participations[i].orders[o];
      if order.status != PaymentOrders.PendingPayment {
        return Some(StatusForbids);
      }
      if order.expiresAt <= now {
        return Some(PaymentExpired);
      }
      var allocation := Prepare(order.allocation, order.Payable(), available, externalOnly);
      if allocation.Refused? {
        return Some(allocation.reason);
      }
      order := order.(allocation := Some(allocation.value));
      participations := participations[i := participations[i].(orders := participations[i].orders[o := order])];
      if allocation.value.external == 0 {
        refusal := ApplyPaymentSuccess(i, o, now, now);
        if refusal.Some? {
          participations := saved;
        }
        return;
      }
      return None;
    }

    // The job queued when an order is closed: a payment won by the race is refunded.
    method EnsureCompensation(i: nat, o: nat) returns (refusal: Option<Refusal>)
      requires i < |participations| && o < |participations[i].orders|
      modifies `participations
      ensures match Participations.EnsureCompensation(old(participations[i]), o)
        case Ok(q) => refusal.None? && participations == old(participations)[i := q]
        case Refused(reason) => refusal == Some(reason) && participations == old(participations)
    {
      var order := participations[i].orders[o];
      if HasCompensation(order) {
        return None;
      }
      var captured := if order.IsReleased() then order.allocation.value.external else order.Payable();
      var principal := Min(order.principal, captured);
      var refund := CreateRefund(i, o, TimeoutKey(o), principal, captured - principal, 0, false);
      return if refund.Ok? then None else Some(refund.reason);
    }

    // ----- giving up a seat -----

    method CancelOwn(user: nat, now: Time) returns (refusal: Option<Refusal>)
      modifies `participations, `status
      ensures Answers(Activities.CancelOwn(old(State()), user, now), old(State()), refusal)
    {
      hide Sync, FindUser, FindKey, AddRefund, MatchRule, RoundPercent;
      var found := FindUser(participations, user);
      if found.None? {
        return Some(NoSuchRecord);
      }
      var i := found.value;
      var row := participations[i];
      if row.status == Participations.Cancelled {
        return None;
      }
      if row.status == Awaiting {
        CancelAwaiting(i);
        return None;
      }
      if row.status != Active {
        return Some(StatusForbids);
      }
      if HasUndecidedCase(row) {
        return Some(AfterSalesOpen);
      }
      var latest := LatestRefundable(row);
      if latest.None? {
        return Some(PaymentMissing);
      }
      if terms.startsAt - now < 0 {
        return Some(AlreadyStarted);
      }
      var rule := MatchRule(terms.rules, terms.startsAt - now);
      var principal := RoundPercent(row.principal, rule.principalPercent);
      var fee := RoundPercent(row.fee, rule.feePercent);
      var retained := row.principal - principal;
      var refund := CreateRefund(i, latest.value, SelfCancelKey(latest.value), principal, fee, retained, retained != 0);
      if refund.Refused? {
        return Some(refund.reason);
      }
      participations := participations[i := participations[i].(status := Participations.Cancelled)];
      assert participations == old(participations)[i := participations[i]];
      SyncFormation(now);
      return None;
    }

    method CancelAwaiting(i: nat)
      requires i < |participations|
      modifies `participations
      ensures participations == old(participations)[i := CloseAwaiting(old(participations[i]))]
    {
      var pending := OpenOrder(participations[i]);
      if pending.Some? {
        CloseOrder(i, pending.value);
      }
      participations := participations[i := participations[i].(status := Participations.Cancelled, holdUntil := None)];
    }

    // ----- cancelling the whole activity -----

    // One participant of a mass cancellation.
    method CancelRow(i: nat, kind: MassKind) returns (refusal: Option<Refusal>)
      requires i < |participations|
      modifies `participations
      ensures match MassCancel(old(participations[i]), kind)
        case Ok(q) => refusal.None? && participations == old(participations)[i := q]
        case Refused(reason) => refusal == Some(reason) && participations == old(participations)
    {
      hide FindKey, AddRefund;
      var row := participations[i];
      if row.status == Awaiting {
        CancelAwaiting(i);
        return None;
      }
      if row.status != Active {
        assert participations[i := row] == participations;
        return None;
      }
      var latest := LatestRefundable(row);
      if latest.None? {
        return Some(PaymentMissing);
      }
      var order := row.orders[latest.value];
      var refund := CreateRefund(i, latest.value, MassKey(kind, latest.value),
        order.principal - ReservedPrincipal(order), order.fee - ReservedFee(order), 0, false);
      if refund.Refused? {
        return Some(refund.reason);
      }
      participations := participations[i := participations[i].(status := Participations.Cancelled, holdUntil := None)];
      return None;
    }

    // Closes every open order and refunds every seat in full.
    method RefundEveryone(kind: MassKind) returns (refusal: Option<Refusal>)
      modifies `participations
      ensures match CancelRows(old(participations), kind)
        case Ok(rows) => refusal.None? && participations == rows
        case Refused(reason) => refusal == Some(reason) && participations == old(participations)
    {
      hide MassCancel, CancelRows;
      OneMoreCancelled(participations, 0, kind, []);
      var saved := participations;
      ghost var done: seq<Participation> := [];
      var i := 0;
      while i < |participations|
        invariant i == |done| <= |participations| == |saved|
        invariant CancelRows(saved[..i], kind) == Ok(done) && participations == done + saved[i..]
      {
        OneMoreCancelled(saved, i, kind, done);
        refusal := CancelRow(i, kind);
        if refusal.Some? {
          RefusedEarly(saved, i + 1, kind);
          participations := saved;
          return;
        }
        done := done + [participations[i]];
        i := i + 1;
      }
      assert saved[..|saved|] == saved;
      return None;
    }

    method RefundPublishOrder(principal: int, fee: int) returns (refusal: Option<Refusal>)
      modifies `publish
      ensures match RefundPublish(old(publish), principal, fee)
        case Ok(order) => refusal.None? && publish == order
        case Refused(reason) => refusal == Some(reason) && publish == old(publish)
    {
      if !(0 <= principal <= publish.principal) || !(0 <= fee <= publish.fee) {
        return Some(AmountInvalid);
      }
      var amount := principal + fee;
      var legs := Route(publish.allocation, amount, 0, 0);
      if legs.Refused? {
        return Some(legs.reason);
      }
      if publish.refund.Some? {
        return None;
      }
      var pending := amount != 0 && (publish.viaChannel || legs.value.wallet != 0);
      publish := publish.(refund := Some(PublishRefund(principal, fee, legs.value.wallet, legs.value.external, pending)));
      if !pending {
        publish := publish.(status := if amount == publish.principal + publish.fee then PublishRefunded else PublishPartlyRefunded);
      }
      return None;
    }

    method CancelEverything(kind: MassKind, principal: int, fee: int, target: ActivityStatus) returns (refusal: Option<Refusal>)
      modifies `participations, `publish, `status
      ensures Answers(Activities.CancelEverything(old(State()), kind, principal, fee, target), old(State()), refusal)
    {
      hide CancelRows, RefundPublish;
      var saved := participations;
      refusal := RefundEveryone(kind);
      if refusal.Some? {
        return;
      }
      refusal := RefundPublishOrder(principal, fee);
      if refusal.Some? {
        participations := saved;
        return;
      }
      status := target;
    }

    method CancelByOrganizer(now: Time) returns (refusal: Option<Refusal>)
      modifies `participations, `publish, `status
      ensures Answers(Activities.CancelByOrganizer(old(State()), now), old(State()), refusal)
    {
      hide Activities.CancelEverything, RoundPercent;
      if status !in {Recruiting, Formed} {
        return Some(StatusForbids);
      }
      if terms.startsAt <= now {
        return Some(AlreadyStarted);
      }
      if publish.status == PublishRefunded {
        return Some(PaymentMissing);
      }
      var principal, fee := publish.principal, 0;
      if now - publishedAt <= 12 * 3600 {
        fee := publish.fee;
      } else if terms.startsAt - now < 6 * 3600 {
        principal := RoundPercent(publish.principal, 70);
      }
      refusal := CancelEverything(OrganizerCancellation, principal, fee, CalledOff);
    }

    method CancelByAdmin() returns (refusal: Option<Refusal>)
      modifies `participations, `publish, `status
      ensures Answers(Activities.CancelByAdmin(old(State())), old(State()), refusal)
      ensures forall t :: BookOk(old(State()), t) ==>
        (refusal.None? <==> old(status) in {Recruiting, Formed} && old(publish.status) == PublishPaid)
      ensures refusal.None? ==> status == CalledOff && AllGivenBack(old(publish), publish)
    {
      hide Activities.CancelEverything, BookOk;
      forall t | BookOk(State(), t) && status in {Recruiting, Formed}
        ensures Activities.CancelEverything(State(), AdminCancellation, publish.principal, publish.fee, CalledOff).Ok?
      {
        CancelEverythingKeepsOk(State(), t, AdminCancellation, publish.principal, publish.fee, CalledOff);
      }
      CancelledAndRefunded(State(), AdminCancellation, publish.principal, publish.fee, CalledOff);
      if status !in {Recruiting, Formed} {
        return Some(StatusForbids);
      }
      if publish.status != PublishPaid {
        return Some(PaymentMissing);
      }
      refusal := CancelEverything(AdminCancellation, publish.principal, publish.fee, CalledOff);
    }

    method FailUnformed(now: Time) returns (refusal: Option<Refusal>)
      modifies `participations, `publish, `status
      ensures Answers(Activities.FailUnformed(old(State()), now), old(State()), refusal)
      ensures status == NotFormed && old(status) != NotFormed ==>
        && old(status) == Recruiting && terms.formationDeadline <= now && ActiveCount(old(State())) < terms.minParticipants
        && AllGivenBack(old(publish), publish)
    {
      CancelledAndRefunded(State(), FailedToForm, publish.principal, publish.fee, NotFormed);
      hide Activities.CancelEverything, ActiveCount;
      if status != Recruiting || terms.formationDeadline > now {
        return None;
      }
      if ActiveCount(State()) >= terms.minParticipants {
        status := Formed;
        return None;
      }
      if publish.status == PublishRefunded {
        return Some(PaymentMissing);
      }
      refusal := CancelEverything(FailedToForm, publish.principal, publish.fee, NotFormed);
    }

    method RunCompensation(i: nat, o: nat, answer: Option<Time>, now: Time) returns (refusal: Option<Refusal>)
      modifies `participations, `status
      ensures Answers(CompensationTask(old(State()), i, o, answer, now), old(State()), refusal)
    {
      hide Participations.EnsureCompensation, Sync, ApplySuccess;
      if i >= |participations| || o >= |participations[i].orders| || !participations[i].orders[o].compensation {
        return Some(NoSuchRecord);
      }
      var saved := participations;
      var order := participations[i].orders[o];
      assert participations[i := participations[i]] == participations;
      if HasCompensation(order) || order.status == PaymentOrders.Refunded {
        return None;
      }
      if order.IsRefundable() {
        if participations[i].status in {Participations.Cancelled, Expired} {
          refusal := EnsureCompensation(i, o);
          return;
        }
        return None;
      }
      if order.status != PaymentOrders.Closed || answer.None? {
        return None;
      }
      ClosedIsLate(participations[i], o, answer.value);
      refusal := ApplyPaymentSuccess(i, o, answer.value, now);
      if refusal.None? && o < |participations[i].orders| {
        refusal := EnsureCompensation(i, o);
        if refusal.Some? {
          participations := saved;
        }
      }
    }

    // ----- the activity's own course -----

    method ReviewActivity(approve: bool, guards: bool, now: Time) returns (refusal: Option<Refusal>)
      modifies `status, `publishedAt, `publish
      ensures Answers(if approve then ReviewApprove(old(State()), guards, now) else ReviewReject(old(State())), old(State()), refusal)
      ensures refusal.None? && approve ==> status == Recruiting && publishedAt == now < terms.formationDeadline && publish == old(publish)
      ensures refusal.None? && !approve ==> status == Rejected && AllGivenBack(old(publish), publish) && participations == old(participations)
    {
      RefundOnRecord(publish, publish.principal, publish.fee);
      hide RefundPublish;
      if status != UnderReview {
        return Some(StatusForbids);
      }
      if publish.status != PublishPaid {
        return Some(PaymentMissing);
      }
      if approve {
        if !guards || terms.formationDeadline <= now || terms.startsAt <= now {
          return Some(SignUpClosed);
        }
        status, publishedAt := Recruiting, now;
        return None;
      }
      refusal := RefundPublishOrder(publish.principal, publish.fee);
      if refusal.None? {
        status := Rejected;
      }
    }

    method StartFormed(now: Time)
      modifies `status
      ensures State() == Start(old(State()), now)
      ensures status == InProgress <==> old(status) == InProgress || (old(status) == Formed && terms.startsAt <= now)
    {
      if status == Formed && terms.startsAt <= now {
        status := InProgress;
      }
    }

    method CompleteStarted(now: Time)
      modifies `status
      ensures State() == Complete(old(State()), now)
      ensures status == Completed <==> old(status) == Completed || (old(status) == InProgress && terms.endsAt <= now)
    {
      if status == InProgress && terms.endsAt <= now {
        status := Completed;
      }
    }

    // ----- settlement -----

    // Adds up one participation's paid orders.
    method AddUp(p: Participation, before: Sums) returns (s: Sums)
      ensures s == AddOrders(before, p, |p.orders|)
    {
      hide NetPrincipal, NetFee, RetainedOf;
      s := before;
      var current := CurrentOrder(p);
      var o := 0;
      while o < |p.orders|
        invariant o <= |p.orders| && s == AddOrders(before, p, o)
      {
        var order := p.orders[o];
        if CountsAsPaid(order) {
          var principal := NetPrincipal(order);
          s := s.(fee := s.fee + NetFee(order));
          if current == Some(o) {
            s := s.(participant := s.participant + principal);
          } else {
            var retained := RetainedOf(order);
            s := s.(retained := s.retained + retained, unallocated := s.unallocated + Max(0, principal - retained));
          }
        }
        o := o + 1;
      }
    }

    method CalculateAmounts() returns (a: Amounts)
      ensures a == Calculate(publish, participations)
      ensures PublishOk(publish) && RowsOk(participations) ==>
        && a.participant == Total(participations, SeatPrincipal)
        && a.retained == Total(participations, LeftBehind)
        && a.settlement == publish.principal - PublishPrincipalRefunded(publish) + a.participant + a.retained
    {
      hide AddOrders, ParticipationOk, SeatPrincipal, LeftBehind;
      if PublishOk(publish) && RowsOk(participations) {
        PayoutExactly(publish, participations);
      }
      var organizer := Max(0, publish.principal - PublishPrincipalRefunded(publish));
      var s := Sums(0, 0, 0, Max(0, publish.fee - PublishFeeRefunded(publish)));
      ghost var zero := s;
      var i := 0;
      while i < |participations|
        invariant i <= |participations| && s == AddParticipations(zero, participations, i)
      {
        s := AddUp(participations[i], s);
        i := i + 1;
      }
      return Amounts(organizer, s.participant, s.retained, organizer + s.participant + s.retained, s.fee, s.unallocated);
    }

    method EnsureSettlement(periods: Periods) returns (refusal: Option<Refusal>)
      modifies `settlement
      ensures Answers(Activities.EnsureSettlement(old(State()), periods), old(State()), refusal)
    {
      hide Calculate, AnyOpenCase;
      if status != Completed {
        return Some(StatusForbids);
      }
      var amounts := CalculateAmounts();
      if settlement.Some? {
        if settlement.value.status != Settled {
          settlement := Some(settlement.value.(amounts := amounts));
        }
        return None;
      }
      var open := AnyOpenCase(State());
      var deadline := terms.endsAt + periods.confirmation;
      settlement := Some(Settlement(amounts, Confirming, NoDispute, deadline, deadline + periods.freeze, None, None));
      if open {
        settlement := Some(settlement.value.(status := DisputeFrozen, source := AfterSalesDispute));
      }
      return None;
    }

    method FreezeForAfterSales(periods: Periods) returns (refusal: Option<Refusal>)
      modifies `settlement
      ensures Answers(Activities.FreezeForAfterSales(old(State()), periods), old(State()), refusal)
    {
      hide Activities.EnsureSettlement;
      var saved := settlement;
      if settlement.None? && status == Completed {
        refusal := EnsureSettlement(periods);
        if refusal.Some? {
          return;
        }
      }
      if settlement.None? {
        return None;
      }
      if settlement.value.status == Settled {
        settlement := saved;
        return Some(AlreadySettled);
      }
      if settlement.value.source == AdminDispute {
        return None;
      }
      settlement := Some(settlement.value.(status := DisputeFrozen, source := AfterSalesDispute));
      return None;
    }

    // Lifts a dispute: back to the stage the clock says.
    method Thaw(now: Time)
      requires settlement.Some?
      modifies `settlement
      ensures settlement == Some(Thawed(old(settlement).value, now))
    {
      var s := settlement.value;
      if now < s.confirmationDeadline {
        s := s.(status := Confirming, riskFrozenAt := None);
      } else {
        s := s.(status := RiskFrozen, riskFrozenAt := Some(s.confirmationDeadline));
      }
      settlement := Some(s.(source := NoDispute));
    }

    method ReleaseAfterSales(now: Time)
      modifies `settlement
      ensures State() == Activities.ReleaseAfterSales(old(State()), now)
    {
      hide AnyOpenCase, Calculate;
      if settlement.None? || settlement.value.status == Settled || settlement.value.source != AfterSalesDispute || AnyOpenCase(State()) {
        return;
      }
      var amounts := CalculateAmounts();
      settlement := Some(settlement.value.(amounts := amounts));
      Thaw(now);
    }

    method AdvanceSettlement(now: Time) returns (refusal: Option<Refusal>)
      modifies `settlement
      ensures Answers(Activities.AdvanceSettlement(old(State()), now), old(State()), refusal)
    {
      hide AnyOpenCase, Calculate;
      if settlement.None? {
        return Some(NoSuchRecord);
      }
      if settlement.value.status == Settled {
        return None;
      }
      if AnyOpenCase(State()) {
        if settlement.value.source != AdminDispute {
          settlement := Some(settlement.value.(status := DisputeFrozen, source := AfterSalesDispute));
        }
        return None;
      }
      if settlement.value.source == AdminDispute {
        return None;
      }
      ReleaseAfterSales(now);
      var amounts := CalculateAmounts();
      var s := settlement.value.(amounts := amounts);
      if s.status == Confirming && now >= s.confirmationDeadline {
        s := s.(status := RiskFrozen, riskFrozenAt := Some(s.confirmationDeadline));
      }
      if s.status == RiskFrozen && now >= s.freezeUntil {
        s := s.(status := Settled, settledAt := Some(now));
      }
      settlement := Some(s);
      return None;
    }

    method FreezeDispute() returns (refusal: Option<Refusal>)
      modifies `settlement
      ensures Answers(FreezeByAdmin(old(State())), old(State()), refusal)
      ensures refusal.None? <==> old(settlement).Some? && !IsSettled(old(State()))
      ensures refusal.None? ==> settlement.Some? && settlement.value.source == AdminDispute && !IsSettled(State())
    {
      if settlement.None? {
        return Some(NoSuchRecord);
      }
      if settlement.value.status == Settled {
        return Some(AlreadySettled);
      }
      settlement := Some(settlement.value.(status := DisputeFrozen, source := AdminDispute));
      return None;
    }

    method ReleaseDispute(now: Time) returns (refusal: Option<Refusal>)
      modifies `settlement
      ensures Answers(ReleaseByAdmin(old(State()), now), old(State()), refusal)
    {
      hide AnyUndecidedCase, Activities.AdvanceSettlement;
      if settlement.None? {
        return Some(NoSuchRecord);
      }
      if settlement.value.source != AdminDispute {
        return Some(StatusForbids);
      }
      if AnyUndecidedCase(State()) {
        return Some(AfterSalesOpen);
      }
      var saved := settlement;
      Thaw(now);
      refusal := AdvanceSettlement(now);
      if refusal.Some? {
        settlement := saved;
      }
    }

    method Settle(now: Time) returns (refusal: Option<Refusal>)
      modifies `settlement
      ensures Answers(SettleByAdmin(old(State()), now), old(State()), refusal)
      ensures SettlementOk(old(State())) && refusal.None? ==>
        && old(settlement).Some?
        && (IsSettled(State()) <==>
              IsSettled(old(State())) || (!AnyOpenCase(old(State())) && old(settlement).value.freezeUntil <= now))
    {
      hide Activities.AdvanceSettlement, SettlementOk, AnyOpenCase;
      NothingToAdvance(State(), now);
      if SettlementOk(State()) && settlement.Some? && settlement.value.source != AdminDispute {
        PaidWhenDue(State(), now);
      }
      if settlement.Some? && settlement.value.source == AdminDispute {
        return Some(StatusForbids);
      }
      refusal := AdvanceSettlement(now);
    }

    // ----- after-sales -----

    method RegisterCase(user: nat, staff: Option<(nat, nat)>, periods: Periods) returns (refusal: Option<Refusal>)
      modifies `participations, `settlement
      ensures Answers(Activities.RegisterCase(old(State()), user, staff, periods), old(State()), refusal)
    {
      hide FindUser, Activities.FreezeForAfterSales, HasOpenCase, ReservedPrincipal, ReservedFee;
      var found := FindUser(participations, user);
      if found.None? {
        return Some(NoSuchRecord);
      }
      var saved := participations;
      var row := participations[found.value];
      if HasOpenCase(row) {
        return if staff.None? then None else Some(AfterSalesOpen);
      }
      if settlement.Some? && settlement.value.status == Settled {
        return Some(AlreadySettled);
      }
      var latest := LatestRefundable(row);
      if latest.None? {
        return Some(PaymentMissing);
      }
      var order := row.orders[latest.value];
      var principal := order.principal - ReservedPrincipal(order);
      var fee := order.fee - ReservedFee(order);
      if principal + fee <= 0 {
        return Some(NothingRefundable);
      }
      if principal < 0 || fee < 0 {
        return Some(AmountInvalid);
      }
      var asked: (nat, nat) := (principal, fee);
      if staff.Some? {
        if Total(order.refunds, UnfinishedOf) != 0 {
          return Some(RefundUnfinished);
        }
        if staff.value.0 + staff.value.1 == 0 {
          return Some(AmountInvalid);
        }
        if staff.value.0 > principal || staff.value.1 > fee {
          return Some(AmountExceedsRefundable);
        }
        asked := staff.value;
      }
      row := row.(cases := row.cases + [AfterSalesCase(asked.0, asked.1, 0, 0, CasePending, None, false)]);
      participations := participations[found.value := row];
      refusal := FreezeForAfterSales(periods);
      if refusal.Some? {
        participations := saved;
      }
    }

    method SaveCase(i: nat, c: nat, x: AfterSalesCase)
      requires CaseExists(State(), i, c)
      modifies `participations
      ensures participations == old(participations)[i := SetCase(old(participations[i]), c, x)]
    {
      participations := participations[i := participations[i].(cases := participations[i].cases[c := x])];
    }

    method StartReview(i: nat, c: nat) returns (refusal: Option<Refusal>)
      modifies `participations
      ensures Answers(BeginReview(old(State()), i, c), old(State()), refusal)
    {
      if !CaseExists(State(), i, c) {
        return Some(NoSuchRecord);
      }
      var x := participations[i].cases[c];
      if x.status != CasePending {
        return Some(StatusForbids);
      }
      SaveCase(i, c, x.(status := CaseProcessing));
      return None;
    }

    method Escalate(i: nat, c: nat) returns (refusal: Option<Refusal>)
      modifies `participations
      ensures Answers(EscalateCase(old(State()), i, c), old(State()), refusal)
    {
      if !CaseExists(State(), i, c) {
        return Some(NoSuchRecord);
      }
      var x := participations[i].cases[c];
      if x.status !in {CasePending, CaseProcessing} {
        return Some(StatusForbids);
      }
      SaveCase(i, c, x.(requiresSupervisor := true));
      return None;
    }

    method Decline(i: nat, c: nat, now: Time) returns (refusal: Option<Refusal>)
      modifies `participations, `settlement
      ensures Answers(DeclineCase(old(State()), i, c, now), old(State()), refusal)
    {
      hide Activities.ReleaseAfterSales;
      if !CaseExists(State(), i, c) {
        return Some(NoSuchRecord);
      }
      var x := participations[i].cases[c];
      if x.status !in {CasePending, CaseProcessing} {
        return Some(StatusForbids);
      }
      SaveCase(i, c, x.(status := CaseRejected));
      ReleaseAfterSales(now);
      return None;
    }

    // Refunds an approved case and gives up the seat.
    method ApproveRow(i: nat, c: nat, principalGiven: Option<int>, feeGiven: Option<int>, authorised: bool) returns (refusal: Option<Refusal>)
      requires CaseExists(State(), i, c)
      modifies `participations
      ensures match ApproveCase(old(participations[i]), c, principalGiven, feeGiven, authorised)
        case Ok(q) => refusal.None? && participations == old(participations)[i := q]
        case Refused(reason) => refusal == Some(reason) && participations == old(participations)
    {
      hide FindKey, AddRefund, ReservedPrincipal, ReservedFee, Total;
      var row := participations[i];
      var x := row.cases[c];
      if x.status !in {CasePending, CaseProcessing} {
        return Some(StatusForbids);
      }
      var principal := if principalGiven.Some? then principalGiven.value else x.requestedPrincipal;
      var fee := if feeGiven.Some? then feeGiven.value else x.requestedFee;
      if principal > x.requestedPrincipal || fee > x.requestedFee {
        return Some(AmountExceedsRefundable);
      }
      var latest := LatestRefundable(row);
      if latest.None? {
        return Some(PaymentMissing);
      }
      var order := row.orders[latest.value];
      if principal < 0 || fee < 0 || principal + fee <= 0 {
        return Some(AmountInvalid);
      }
      if principal > order.principal - ReservedPrincipal(order) || fee > order.fee - ReservedFee(order) {
        return Some(AmountExceedsRefundable);
      }
      if Total(order.refunds, UnfinishedOf) != 0 {
        return Some(RefundUnfinished);
      }
      if !authorised {
        SaveCase(i, c, x.(requiresSupervisor := true));
        return None;
      }
      var refund := CreateRefund(i, latest.value, AfterSalesKey(c), principal, fee, 0, false);
      if refund.Refused? {
        return Some(refund.reason);
      }
      SaveCase(i, c, x.(status := CaseApproved, approvedPrincipal := principal, approvedFee := fee, refund := Some(refund.value)));
      if participations[i].status == Active {
        participations := participations[i := participations[i].(status := Participations.Cancelled)];
      }
      return None;
    }

    method ApproveAfterSales(i: nat, c: nat, principal: Option<int>, fee: Option<int>, authorised: bool, now: Time)
      returns (refusal: Option<Refusal>)
      modifies `participations, `status, `settlement
      ensures Answers(Approve(old(State()), i, c, principal, fee, authorised, now), old(State()), refusal)
    {
      hide ApproveCase, Sync, Activities.ReleaseAfterSales;
      if !CaseExists(State(), i, c) {
        return Some(NoSuchRecord);
      }
      if participations[i].cases[c].status !in {CasePending, CaseProcessing} {
        return Some(StatusForbids);
      }
      if settlement.Some? && settlement.value.status == Settled {
        return Some(AlreadySettled);
      }
      var seated := participations[i].status == Active;
      refusal := ApproveRow(i, c, principal, fee, authorised);
      if refusal.Some? || !authorised {
        return;
      }
      if seated {
        SyncFormation(now);
      }
      ReleaseAfterSales(now);
    }

    // ----- refunds -----

    method SaveRefund(i: nat, ref: RefundRef, refund: Refund)
      requires i < |participations| && RefExists(participations[i], ref)
      modifies `participations
      ensures var p := old(participations[i]);
        var o := p.orders[ref.order];
        participations == old(participations)[i := p.(orders := p.orders[ref.order := o.(refunds := o.refunds[ref.refund := refund])])]
    {
      var row := participations[i];
      var order := row.orders[ref.order];
      order := order.(refunds := order.refunds[ref.refund := refund]);
      participations := participations[i := row.(orders := row.orders[ref.order := order])];
    }

    // Books a refund with the wallet, marks it done and recounts the order.
    method CompleteRefund(i: nat, ref: RefundRef) returns (refusal: Option<Refusal>)
      requires i < |participations| && RefExists(participations[i], ref)
      modifies `participations
      ensures var p := old(participations[i]);
        match PaymentOrders.CompleteRefund(p.orders[ref.order], ref.refund)
        case Ok(o) => refusal.None? && participations == old(participations)[i := p.(orders := p.orders[ref.order := o])]
        case Refused(reason) => refusal == Some(reason) && participations == old(participations)
    {
      hide CompleteWalletRefund, SucceededAmount;
      var row := participations[i];
      var order := row.orders[ref.order];
      var refund := order.refunds[ref.refund];
      if refund.status == RefundSucceeded {
        assert row.orders[ref.order := order] == row.orders;
        assert participations[i := row] == participations;
        return None;
      }
      if order.allocation.Some? {
        var booked := CompleteWalletRefund(order.allocation.value, refund.wallet, refund.external, refund.receipt);
        if booked.Refused? {
          return Some(booked.reason);
        }
        order := order.(allocation := Some(booked.value));
        refund := refund.(receipt := true);
      }
      refund := refund.(status := RefundSucceeded);
      order := order.(refunds := order.refunds[ref.refund := refund]);
      var total := SucceededAmount(order);
      if total >= order.Payable() || (order.allocation.Some? && order.allocation.value.status == FullyReturned) {
        order := order.(status := PaymentOrders.Refunded);
      } else if total != 0 {
        order := order.(status := PartlyRefunded);
      }
      participations := participations[i := row.(orders := row.orders[ref.order := order])];
      return None;
    }

    method ProgressRow(i: nat, ref: RefundRef, step: Progress) returns (refusal: Option<Refusal>)
      requires i < |participations| && RefExists(participations[i], ref)
      modifies `participations
      ensures match Participations.Advance(old(participations[i]), ref, step)
        case Ok(q) => refusal.None? && participations == old(participations)[i := q]
        case Refused(reason) => refusal == Some(reason) && participations == old(participations)
    {
      hide PaymentOrders.CompleteRefund;
      var row := participations[i];
      var refund := row.orders[ref.order].refunds[ref.refund];
      match step {
        case TakeUp =>
          if refund.external == 0 {
            refusal := CompleteRefund(i, ref);
            return;
          }
          if refund.status == RefundSucceeded {
            assert row.orders[ref.order := row.orders[ref.order]] == row.orders;
            assert participations[i := row] == participations;
            return None;
          }
          SaveRefund(i, ref, refund.(status := RefundProcessing));
        case ChannelSucceeded =>
          refusal := CompleteRefund(i, ref);
          return;
        case ChannelFailed =>
          if refund.external == 0 {
            return Some(NoSuchRecord);
          }
          SaveRefund(i, ref, refund.(status := RefundFailed));
      }
      return None;
    }

    method ProcessRefund(i: nat, ref: RefundRef, step: Progress, at: Time) returns (refusal: Option<Refusal>)
      modifies `participations, `settlement
      ensures Answers(RefundProgress(old(State()), i, ref, step, at), old(State()), refusal)
    {
      hide Participations.Advance, Activities.ReleaseAfterSales, RefundStatusAt;
      if i >= |participations| || !RefExists(participations[i], ref) {
        return Some(NoSuchRecord);
      }
      var before := participations[i].orders[ref.order].refunds[ref.refund];
      refusal := ProgressRow(i, ref, step);
      if refusal.Some? {
        return;
      }
      var done := RefundStatusAt(participations[i], ref) == RefundSucceeded && before.status != RefundSucceeded;
      if done && before.key.AfterSalesKey? {
        ReleaseAfterSales(at);
      }
    }

    // ----- one call at a time -----

    method ServeSeatCall(c: Call, now: Time) returns (refusal: Option<Refusal>)
      requires IsSeatCall(c)
      modifies this
      ensures Answers(Try(old(State()), c, now), old(State()), refusal)
    {
      hide Activities.SignUp, ExpireRows, ExpireOne, Activities.OpenPayment, RecordSuccess, CompensationTask, Activities.CancelOwn,
        Activities.CancelByOrganizer, Activities.CancelByAdmin, Activities.FailUnformed, Start, Complete, ReviewApprove, ReviewReject;
      match c {
        case ReviewApproveCall(guards) => refusal := ReviewActivity(true, guards, now);
        case ReviewRejectCall => refusal := ReviewActivity(false, true, now);
        case SignUpCall(user, eligible, cityOpen, timeout) => refusal := SignUp(user, eligible, cityOpen, timeout, now);
        case ExpireOrderCall(i, o) =>
          if i >= |participations| || o >= |participations[i].orders| {
            return Some(NoSuchRecord);
          }
          var _ := ExpireOrder(i, o, now);
          refusal := None;
        case ExpireAllCall =>
          var _ := ExpirePending(now);
          refusal := None;
        case OpenPaymentCall(user, available, externalOnly) => refusal := OpenPayment(user, available, externalOnly, now);
        case ChannelSuccessCall(i, o, paidAt) => refusal := ApplyPaymentSuccess(i, o, paidAt, now);
        case CompensationCall(i, o, answer) => refusal := RunCompensation(i, o, answer, now);
        case CancelOwnCall(user) => refusal := CancelOwn(user, now);
        case CancelByOrganizerCall => refusal := CancelByOrganizer(now);
        case CancelByAdminCall => refusal := CancelByAdmin();
        case FailUnformedCall => refusal := FailUnformed(now);
        case StartCall => StartFormed(now); refusal := None;
        case CompleteCall => CompleteStarted(now); refusal := None;
      }
    }

    method ServeMoneyCall(c: Call, now: Time) returns (refusal: Option<Refusal>)
      requires !IsSeatCall(c)
      modifies this
      ensures Answers(Try(old(State()), c, now), old(State()), refusal)
    {
      hide Activities.RegisterCase, BeginReview, EscalateCase, DeclineCase, Approve, RefundProgress, Activities.EnsureSettlement,
        Activities.AdvanceSettlement, FreezeByAdmin, ReleaseByAdmin, SettleByAdmin;
      match c {
        case RegisterCaseCall(user, staff, periods) => refusal := RegisterCase(user, staff, periods);
        case BeginReviewCall(i, k) => refusal := StartReview(i, k);
        case EscalateCaseCall(i, k) => refusal := Escalate(i, k);
        case DeclineCaseCall(i, k) => refusal := Decline(i, k, now);
        case ApproveCall(i, k, principal, fee, authorised) => refusal := ApproveAfterSales(i, k, principal, fee, authorised, now);
        case RefundCall(i, ref, step, at) => refusal := ProcessRefund(i, ref, step, if step == TakeUp then now else at);
        case EnsureSettlementCall(periods) => refusal := EnsureSettlement(periods);
        case AdvanceSettlementCall => refusal := AdvanceSettlement(now);
        case FreezeByAdminCall => refusal := FreezeDispute();
        case ReleaseByAdminCall => refusal := ReleaseDispute(now);
        case SettleByAdminCall => refusal := Settle(now);
      }
    }

    /** Serves any call: the desk ends in the state the call leads to, and whatever
        held of the book at time t holds of it now. */
    method Serve(c: Call, ghost t: Time, now: Time) returns (refusal: Option<Refusal>)
      requires BookOk(State(), t) && t <= now
      modifies this
      ensures State() == Next(old(State()), c, now)
      ensures refusal.None? <==> Try(old(State()), c, now).Ok?
      ensures BookOk(State(), now)
    {
      hide Try, IsSeatCall, BookOk;
      NextKeepsOk(State(), t, c, now);
      if IsSeatCall(c) {
        refusal := ServeSeatCall(c, now);
      } else {
        refusal := ServeMoneyCall(c, now);
      }
    }
  }

  lemma OneMoreCancelled(ps: seq<Participation>, i: nat, kind: MassKind, done: seq<Participation>)
    requires i <= |ps| && |done| == i
    ensures i == 0 ==> CancelRows(ps[..i], kind) == Ok([])
    ensures i < |ps| && CancelRows(ps[..i], kind) == Ok(done) ==>
      match MassCancel(ps[i], kind)
      case Ok(q) =>
        && CancelRows(ps[..i + 1], kind) == Ok(done + [q])
        && (done + ps[i..])[i := q] == done + [q] + ps[i + 1..] && (done + ps[i..])[i] == ps[i]
      case Refused(reason) => CancelRows(ps[..i + 1], kind) == Refused(reason)
  {
    hide MassCancel;
    if i < |ps| {
      assert ps[..i + 1][..i] == ps[..i];
      assert ps[i..][1..] == ps[i + 1..];
    }
  }

  // A publishing payment refunded in full, unless it had a refund before.
  predicate AllGivenBack(before: PublishOrder, after: PublishOrder) {
    && after.refund.Some?
    && (before.refund.None? ==> after.refund.value.principal == before.principal && after.refund.value.fee == before.fee)
  }

  lemma RefundOnRecord(o: PublishOrder, principal: int, fee: int)
    ensures var r := RefundPublish(o, principal, fee);
      r.Ok? ==> r.value.refund.Some? && (o.refund.None? ==> r.value.refund.value.principal == principal && r.value.refund.value.fee == fee)
  {
    hide Route;
  }

  lemma NothingToAdvance(b: Book, now: Time)
    ensures b.settlement.None? ==> Activities.AdvanceSettlement(b, now).Refused?
  {
    hide AnyOpenCase, Calculate;
  }

  lemma CancelledAndRefunded(b: Book, kind: MassKind, principal: int, fee: int, status: ActivityStatus)
    ensures var r := CancelEverything(b, kind, principal, fee, status);
      r.Ok? ==>
        && r.value.status == status && r.value.publish.refund.Some?
        && (b.publish.refund.None? ==> r.value.publish.refund.value.principal == principal && r.value.publish.refund.value.fee == fee)
  {
    hide CancelRows, Route;
  }

  // A payment of a closed order is late, whatever time it was made.
  lemma ClosedIsLate(p: Participation, o: nat, paidAt: Time)
    requires o < |p.orders| && p.orders[o].status == PaymentOrders.Closed
    ensures var r := ApplySuccess(p, o, paidAt); r.Ok? ==> r.value.changed && r.value.late
  {
    hide Participations.CreateRefund;
  }

  // A mass cancellation refused for its first rows is refused for all of them.
  lemma {:induction false} RefusedEarly(ps: seq<Participation>, n: nat, kind: MassKind)
    requires n <= |ps| && CancelRows(ps[..n], kind).Refused?
    ensures CancelRows(ps, kind) == CancelRows(ps[..n], kind)
    decreases |ps|
  {
    hide MassCancel;
    if n < |ps| {
      assert ps[..|ps| - 1][..n] == ps[..n];
      RefusedEarly(ps[..|ps| - 1], n, kind);
    } else {
      assert ps[..n] == ps;
    }
  }
}
