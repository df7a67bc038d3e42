/** Closing an account: a waiting period in which a login withdraws the request, then
    a check that may hold the closure up but never gives the account back. */
module AccountClosures {
  import opened Wrappers
  import opened Totals
  import BusinessDays

  type Time = int

  datatype AccountStatus = Active | Restricted | Suspended | ClosurePending | Closed

  datatype RequestStatus = Pending | Blocked | Withdrawn | Done

  datatype Request = Request(status: RequestStatus, requestedAt: Time, executeAfter: Time, checkedAt: Option<Time>, finishedAt: Option<Time>)

  predicate IsOpen(r: Request) { r.status in {Pending, Blocked} }

  // A token carries the version it was minted with, also when it is refreshed.
  datatype Token = Token(version: nat, mintedAt: Time)

  datatype Account = Account(status: AccountStatus, isActive: bool, version: nat, requests: seq<Request>, tokens: seq<Token>)

  predicate Accepts(a: Account, t: Token) { t.version == a.version && a.status == Active }

  predicate CanAttemptLogin(a: Account) {
    (a.status == Active && a.isActive) || (a.status == ClosurePending && !a.isActive)
  }

  function FindOpen(requests: seq<Request>): (r: Option<nat>)
    ensures r.Some? ==> r.value < |requests| && IsOpen(requests[r.value])
    ensures r.None? ==> forall x :: x in requests ==> !IsOpen(x)
  {
    if requests == [] then None
    else if IsOpen(requests[|requests| - 1]) then Some(|requests| - 1)
    else FindOpen(requests[..|requests| - 1])
  }

  // ----- operations -----

  function Revoke(a: Account): Account { a.(version := a.version + 1) }

  /** `deadline` is the end of the waiting period; None stands for a calendar that is
      not configured far enough. */
  function RequestClosure(a: Account, passwordOk: bool, blocked: bool, deadline: Option<Time>, now: Time): Result<Account> {
    if !a.isActive || a.status != Active then Refused(StatusForbids)
    else if !passwordOk then Refused(PermissionDenied)
    else if blocked then Refused(BusinessOpen)
    else if FindOpen(a.requests).Some? then Refused(RequestOpen)
    else if deadline.None? then Refused(CalendarMissing)
    else
      Ok(Revoke(a.(requests := a.requests + [Request(Pending, now, deadline.value, None, None)], status := ClosurePending, isActive := false)))
  }

  function Withdraw(a: Account, now: Time): Result<Account> {
    if a.status != ClosurePending then Ok(a)
    else
      var open := FindOpen(a.requests);
      if open.None? || now >= a.requests[open.value].executeAfter then Refused(WaitingPeriodOver)
      else
        Ok(Revoke(a.(requests := a.requests[open.value := a.requests[open.value].(status := Withdrawn, finishedAt := Some(now))],
                     status := Active, isActive := true)))
  }

  // A verified login: withdraws a pending closure, then mints a token.
  function Login(a: Account, now: Time): Result<Account> {
    if !CanAttemptLogin(a) then Refused(PermissionDenied)
    else
      var b :- Withdraw(a, now);
      if !b.isActive || b.status != Active then Refused(StatusForbids)
      else Ok(b.(tokens := b.tokens + [Token(b.version, now)]))
  }

  datatype Handled = Skipped | HeldUp | Finished

  function Process(a: Account, blocked: bool, now: Time): (Account, Handled) {
    var open := FindOpen(a.requests);
    if open.None? || a.requests[open.value].executeAfter > now || a.status != ClosurePending then (a, Skipped)
    else
      var request := a.requests[open.value].(checkedAt := Some(now));
      if blocked then (a.(requests := a.requests[open.value := request.(status := Blocked)]), HeldUp)
      else
        var done := request.(status := Done, finishedAt := Some(now));
        (Revoke(a.(status := Closed, isActive := false, requests := a.requests[open.value := done])), Finished)
  }

  datatype StaffAction = Restrict | Suspend | Restore

  function ChangeStatus(a: Account, action: StaffAction): Result<Account> {
    if a.status == Closed then Refused(StatusForbids)
    else
      var (allowed, target) := match action
        case Restrict => ({Active}, Restricted)
        case Suspend => ({Active, Restricted}, Suspended)
        case Restore => ({Restricted, Suspended}, Active);
      if a.status !in allowed then Refused(StatusForbids) else Ok(Revoke(a.(status := target)))
  }

  datatype Call =
    | RequestCall(passwordOk: bool, blocked: bool, deadline: Option<Time>)
    | LoginCall
    | ProcessCall(blocked: bool)
    | StaffCall(action: StaffAction)
    | RevokeCall

  function Try(a: Account, c: Call, now: Time): Result<Account> {
    match c
    case RequestCall(passwordOk, blocked, deadline) => RequestClosure(a, passwordOk, blocked, deadline, now)
    case LoginCall => Login(a, now)
    case ProcessCall(blocked) => Ok(Process(a, blocked, now).0)
    case StaffCall(action) => ChangeStatus(a, action)
    case RevokeCall => Ok(Revoke(a))
  }

  function Next(a: Account, c: Call, now: Time): Account {
    var r := Try(a, c, now);
    if r.Ok? then r.value else a
  }

  datatype Event = Event(call: Call, at: Time)

  function Clock(es: seq<Event>, t: Time): Time { if es == [] then t else es[|es| - 1].at }

  predicate Ordered(es: seq<Event>, t: Time) {
    es != [] ==> Ordered(es[..|es| - 1], t) && Clock(es[..|es| - 1], t) <= es[|es| - 1].at
  }

  function Run(a: Account, es: seq<Event>): Account {
    if es == [] then a else Next(Run(a, es[..|es| - 1]), es[|es| - 1].call, es[|es| - 1].at)
  }

  // ----- invariant -----

  function OpenOf(r: Request): int { if IsOpen(r) then 1 else 0 }

  predicate RequestOk(r: Request, t: Time) { r.status == Blocked ==> r.executeAfter <= t }

  predicate AccountOk(a: Account, t: Time) {
    && Total(a.requests, OpenOf) == (if a.status == ClosurePending then 1 else 0)
    && (a.isActive <==> a.status !in {ClosurePending, Closed})
    && (forall r :: r in a.requests ==> RequestOk(r, t))
    && (forall k :: k in a.tokens ==> k.version <= a.version)
  }

  lemma OpenCount(requests: seq<Request>)
    ensures FindOpen(requests).None? ==> Total(requests, OpenOf) == 0
    ensures FindOpen(requests).Some? ==> Total(requests, OpenOf) >= 1
  {
    if FindOpen(requests).None? {
      TotalIsZero(requests, OpenOf);
    } else {
      TotalAtLeastOne(requests, FindOpen(requests).value, OpenOf);
    }
  }

  // Deciding the one open request.
  lemma Decided(a: Account, r: Request)
    requires FindOpen(a.requests).Some?
    ensures var i := FindOpen(a.requests).value;
      Total(a.requests[i := r], OpenOf) == Total(a.requests, OpenOf) - 1 + OpenOf(r)
  {
    TotalUpdate(a.requests, FindOpen(a.requests).value, r, OpenOf);
  }

  lemma NextKeepsOk(a: Account, t: Time, c: Call, now: Time)
    requires AccountOk(a, t) && t <= now
    ensures AccountOk(Next(a, c, now), now)
  {
    OpenCount(a.requests);
    var b := Next(a, c, now);
    if |b.requests| > |a.requests| {
      TotalAppend(a.requests, b.requests[|a.requests|], OpenOf);
    } else if FindOpen(a.requests).Some? {
      Decided(a, b.requests[FindOpen(a.requests).value]);
      assert b.requests == a.requests[FindOpen(a.requests).value := b.requests[FindOpen(a.requests).value]];
      assert a.requests[FindOpen(a.requests).value] in a.requests;
    }
    RequestsStayOk(a, t, c, now);
    hide Total, RequestOk;
  }

  lemma RequestsStayOk(a: Account, t: Time, c: Call, now: Time)
    requires t <= now && forall r :: r in a.requests ==> RequestOk(r, t)
    ensures forall r :: r in Next(a, c, now).requests ==> RequestOk(r, now)
  {
    var b := Next(a, c, now);
    forall j | 0 <= j < |b.requests|
      ensures RequestOk(b.requests[j], now)
    {
      if j < |a.requests| {
        assert a.requests[j] in a.requests;
      }
    }
  }

  lemma {:induction false} RunKeepsOk(a: Account, t: Time, es: seq<Event>)
    requires AccountOk(a, t) && Ordered(es, t)
    ensures AccountOk(Run(a, es), Clock(es, t))
  {
    hide AccountOk, Next;
    if es != [] {
      var n := |es| - 1;
      RunKeepsOk(a, t, es[..n]);
      NextKeepsOk(Run(a, es[..n]), Clock(es[..n], t), es[n].call, es[n].at);
    }
  }

  /** An account has one open request exactly while its closure is pending, and never
      more than one. */
  lemma OneOpenRequest(a: Account, t: Time, es: seq<Event>)
    requires AccountOk(a, t) && Ordered(es, t)
    ensures var b := Run(a, es);
      && (b.status == ClosurePending <==> Total(b.requests, OpenOf) == 1)
      && Total(b.requests, OpenOf) <= 1
  {
    RunKeepsOk(a, t, es);
  }

  // ----- disjoint windows -----

  /** At no moment can a request both be withdrawn and be carried out: it is
      withdrawn only before its date and handled only from that date on. */
  lemma WindowsDisjoint(a: Account, blocked: bool, now: Time)
    requires a.status == ClosurePending
    ensures Withdraw(a, now).Ok? ==> Process(a, blocked, now).1 == Skipped
    ensures FindOpen(a.requests).Some? ==> (Withdraw(a, now).Ok? <==> now < a.requests[FindOpen(a.requests).value].executeAfter)
    ensures FindOpen(a.requests).Some? ==> (Process(a, blocked, now).1 == Skipped <==> now < a.requests[FindOpen(a.requests).value].executeAfter)
  {
  }

  // A blocked request stays blocked or is carried out; a finished one never changes.
  predicate StepsTo(r: Request, s: Request) {
    && s.executeAfter == r.executeAfter && s.requestedAt == r.requestedAt
    && (r.status == Blocked ==> s.status in {Blocked, Done})
    && (r.status in {Withdrawn, Done} ==> s == r)
  }

  lemma UniqueOpen(requests: seq<Request>, i: nat)
    requires Total(requests, OpenOf) <= 1 && i < |requests| && IsOpen(requests[i])
    ensures FindOpen(requests) == Some(i)
  {
    var j := FindOpen(requests).value;
    if i != j {
      var other := requests[i := Request(Done, 0, 0, None, None)];
      TotalUpdate(requests, i, other[i], OpenOf);
      assert IsOpen(other[j]);
      TotalAtLeastOne(other, j, OpenOf);
    }
  }

  lemma NextStepsTo(a: Account, t: Time, c: Call, now: Time, i: nat)
    requires AccountOk(a, t) && t <= now && i < |a.requests|
    ensures var b := Next(a, c, now); i < |b.requests| && StepsTo(a.requests[i], b.requests[i])
  {
    assert a.requests[i] in a.requests;
    if IsOpen(a.requests[i]) {
      UniqueOpen(a.requests, i);
    }
    hide Total, FindOpen;
  }

  /** Once a request is blocked, its account ends closed or stays pending: it cannot
      be withdrawn any more. */
  lemma {:induction false} BlockedOnlyCloses(a: Account, t: Time, es: seq<Event>, i: nat)
    requires AccountOk(a, t) && Ordered(es, t) && i < |a.requests| && a.requests[i].status == Blocked
    ensures var b := Run(a, es);
      && i < |b.requests| && b.requests[i].status in {Blocked, Done}
      && (b.requests[i].status == Blocked ==> b.status == ClosurePending)
      && (b.requests[i].status == Done ==> b.status == Closed)
  {
    hide AccountOk, Next;
    if es == [] {
      BlockedMeansPending(a, t, i);
    } else {
      var n := |es| - 1;
      var b := Run(a, es[..n]);
      BlockedOnlyCloses(a, t, es[..n], i);
      RunKeepsOk(a, t, es[..n]);
      RunKeepsOk(a, t, es);
      NextStepsTo(b, Clock(es[..n], t), es[n].call, es[n].at, i);
      BlockedStep(b, Clock(es[..n], t), es[n].call, es[n].at, i);
      if Run(a, es).requests[i].status == Blocked {
        BlockedMeansPending(Run(a, es), Clock(es, t), i);
      }
    }
  }

  lemma BlockedMeansPending(a: Account, t: Time, i: nat)
    requires AccountOk(a, t) && i < |a.requests| && IsOpen(a.requests[i])
    ensures a.status == ClosurePending
  {
    TotalAtLeastOne(a.requests, i, OpenOf);
  }

  lemma BlockedStep(a: Account, t: Time, c: Call, now: Time, i: nat)
    requires AccountOk(a, t) && t <= now && i < |a.requests|
    requires (a.requests[i].status == Blocked && a.status == ClosurePending) || (a.requests[i].status == Done && a.status == Closed)
    ensures var b := Next(a, c, now); i < |b.requests| && (b.requests[i].status == Done ==> b.status == Closed)
  {
    assert a.requests[i] in a.requests;
    if a.requests[i].status == Blocked {
      UniqueOpen(a.requests, i);
    } else {
      OpenCount(a.requests);
    }
    hide Total, FindOpen;
  }

  /** A closed account stays closed, whoever acts on it. */
  lemma {:induction false} ClosedForever(a: Account, t: Time, es: seq<Event>)
    requires AccountOk(a, t) && Ordered(es, t) && a.status == Closed
    ensures Run(a, es).status == Closed
  {
    hide AccountOk, Next;
    if es != [] {
      var n := |es| - 1;
      ClosedForever(a, t, es[..n]);
      RunKeepsOk(a, t, es[..n]);
      ClosedStep(Run(a, es[..n]), Clock(es[..n], t), es[n].call, es[n].at);
    }
  }

  lemma ClosedStep(a: Account, t: Time, c: Call, now: Time)
    requires AccountOk(a, t) && a.status == Closed
    ensures Next(a, c, now).status == Closed
  {
    hide Total;
  }

  // ----- what each call does -----

  /** Who may ask for a closure, and what that leaves: one more request, dated, the account
      locked and its sessions ended. */
  lemma RequestOutcome(a: Account, t: Time, passwordOk: bool, blocked: bool, deadline: Option<Time>, now: Time)
    requires AccountOk(a, t)
    ensures var r := RequestClosure(a, passwordOk, blocked, deadline, now);
      && (r.Ok? <==> a.status == Active && passwordOk && !blocked && deadline.Some?)
      && (r.Ok? ==>
            && r.value.status == ClosurePending && !r.value.isActive && r.value.version == a.version + 1 && r.value.tokens == a.tokens
            && r.value.requests == a.requests + [Request(Pending, now, deadline.value, None, None)])
  {
    OpenCount(a.requests);
    hide Total, FindOpen;
  }

  /** Who may log in, and what that leaves: a token of the current version; a closure still
      within its waiting period is withdrawn, and every older session with it. */
  lemma LoginOutcome(a: Account, t: Time, now: Time)
    requires AccountOk(a, t)
    ensures var r := Login(a, now);
      var open := FindOpen(a.requests);
      && (r.Ok? <==> a.status == Active || (a.status == ClosurePending && open.Some? && now < a.requests[open.value].executeAfter))
      && (r.Ok? ==>
            && r.value.status == Active && r.value.isActive
            && r.value.version == (if a.status == Active then a.version else a.version + 1)
            && r.value.tokens == a.tokens + [Token(r.value.version, now)]
            && (a.status == Active ==> r.value.requests == a.requests)
            && (a.status == ClosurePending ==>
                  r.value.requests == a.requests[open.value := a.requests[open.value].(status := Withdrawn, finishedAt := Some(now))]))
  {
    hide Total, FindOpen;
  }

  /** What the periodic job does to a due closure: it is held up while business is open,
      and carried out otherwise; nothing else is touched. */
  lemma ProcessOutcome(a: Account, t: Time, i: nat, blocked: bool, now: Time)
    requires AccountOk(a, t) && i < |a.requests| && IsOpen(a.requests[i])
    ensures var (b, handled) := Process(a, blocked, now);
      && (handled == Skipped <==> now < a.requests[i].executeAfter)
      && (handled == Skipped ==> b == a)
      && (handled == HeldUp ==> blocked && b == a.(requests := a.requests[i := a.requests[i].(status := Blocked, checkedAt := Some(now))]))
      && (handled == Finished ==>
            && !blocked && b.status == Closed && !b.isActive && b.version == a.version + 1 && b.tokens == a.tokens
            && b.requests == a.requests[i := a.requests[i].(status := Done, checkedAt := Some(now), finishedAt := Some(now))])
  {
    BlockedMeansPending(a, t, i);
    UniqueOpen(a.requests, i);
    hide Total, FindOpen;
  }

  function StaffTarget(action: StaffAction): AccountStatus {
    match action
    case Restrict => Restricted
    case Suspend => Suspended
    case Restore => Active
  }

  /** Staff may tighten an account step by step and restore it, and nothing else: never
      one that is closed or being closed. Each change ends the account's sessions. */
  lemma StaffOutcome(a: Account, action: StaffAction)
    ensures var r := ChangeStatus(a, action);
      && (r.Ok? <==>
            || (a.status == Active && action in {Restrict, Suspend})
            || (a.status == Restricted && action in {Suspend, Restore})
            || (a.status == Suspended && action == Restore))
      && (r.Ok? ==> r.value == a.(status := StaffTarget(action), version := a.version + 1))
  {
  }

  // ----- sessions -----

  lemma {:induction false} VersionsGrow(a: Account, es: seq<Event>)
    ensures a.version <= Run(a, es).version
  {
    if es != [] {
      VersionsGrow(a, es[..|es| - 1]);
      VersionStep(Run(a, es[..|es| - 1]), es[|es| - 1].call, es[|es| - 1].at);
    }
  }

  lemma VersionStep(a: Account, c: Call, now: Time)
    ensures a.version <= Next(a, c, now).version
  {
  }

  /** No token minted before a closure request is ever accepted again, even when the
      request is withdrawn. */
  lemma OldTokensDie(a: Account, t: Time, passwordOk: bool, blocked: bool, deadline: Option<Time>, now: Time, es: seq<Event>, k: Token)
    requires AccountOk(a, t) && k in a.tokens && RequestClosure(a, passwordOk, blocked, deadline, now).Ok?
    ensures !Accepts(Run(RequestClosure(a, passwordOk, blocked, deadline, now).value, es), k)
  {
    VersionsGrow(RequestClosure(a, passwordOk, blocked, deadline, now).value, es);
  }

  // ----- the services -----

  class AccountService {
    var status: AccountStatus
    var isActive: bool
    var version: nat
    var requests: seq<Request>
    var tokens: seq<Token>

    function Snapshot(): Account
      reads this
    {
      Account(status, isActive, version, requests, tokens)
    }

    predicate Answers(r: Result<Account>, was: Account, refusal: Option<Refusal>)
      reads this
    {
      match r
      case Ok(a) => refusal.None? && Snapshot() == a
      case Refused(reason) => refusal == Some(reason) && Snapshot() == was
    }

    constructor ()
      ensures Snapshot() == Account(Active, true, 1, [], [])
    {
      status, isActive, version, requests, tokens := Active, true, 1, [], [];
    }

    method RevokeSessions()
      modifies `version
      ensures Snapshot() == Revoke(old(Snapshot()))
    {
      version := version + 1;
    }

    /** The waiting period is counted by the work calendars. */
    method RequestClosureOf(calendars: BusinessDays.Calendars, passwordOk: bool, blocked: bool, now: Time)
      returns (refusal: Option<Refusal>, ghost deadline: Option<Time>)
      requires now >= 0
      modifies this
      ensures Answers(RequestClosure(old(Snapshot()), passwordOk, blocked, deadline, now), old(Snapshot()), refusal)
      ensures refusal.None? ==> deadline.Some? && BusinessDays.IsDeadline(calendars, now, deadline.value)
      ensures refusal == Some(CalendarMissing) ==> !exists d :: BusinessDays.IsDeadline(calendars, now, d)
    {
      hide BusinessDays.StopsAt, FindOpen;
      deadline := None;
      if !isActive || status != Active {
        return Some(StatusForbids), deadline;
      }
      if !passwordOk {
        return Some(PermissionDenied), deadline;
      }
      if blocked {
        return Some(BusinessOpen), deadline;
      }
      if FindOpen(requests).Some? {
        return Some(RequestOpen), deadline;
      }
      var day := BusinessDays.ClosureDay(calendars, now / BusinessDays.DAY_SECONDS);
      if !day.On? {
        BusinessDays.NoDeadline(calendars, now, day);
        return Some(CalendarMissing), deadline;
      }
      var executeAfter := day.day * BusinessDays.DAY_SECONDS + now % BusinessDays.DAY_SECONDS;
      BusinessDays.MomentParts(day.day, now % BusinessDays.DAY_SECONDS);
      deadline := Some(executeAfter);
      requests := requests + [Request(Pending, now, executeAfter, None, None)];
      status, isActive := ClosurePending, false;
      RevokeSessions();
      return None, deadline;
    }

    method WithdrawClosure(now: Time) returns (refusal: Option<Refusal>)
      modifies this
      ensures Answers(Withdraw(old(Snapshot()), now), old(Snapshot()), refusal)
    {
      if status != ClosurePending {
        return None;
      }
      var open := FindOpen(requests);
      if open.None? || now >= requests[open.value].executeAfter {
        return Some(WaitingPeriodOver);
      }
      requests := requests[open.value := requests[open.value].(status := Withdrawn, finishedAt := Some(now))];
      status := Active;
      isActive := true;
      RevokeSessions();
      return None;
    }

    method ProcessClosure(blocked: bool, now: Time) returns (handled: Handled)
      modifies this
      ensures (Snapshot(), handled) == Process(old(Snapshot()), blocked, now)
    {
      var open := FindOpen(requests);
      if open.None? || requests[open.value].executeAfter > now || status != ClosurePending {
        return Skipped;
      }
      var request := requests[open.value];
      request := request.(checkedAt := Some(now));
      if blocked {
        requests := requests[open.value := request.(status := Blocked)];
        return HeldUp;
      }
      status := Closed;
      isActive := false;
      RevokeSessions();
      requests := requests[open.value := request.(status := Done, finishedAt := Some(now))];
      return Finished;
    }

    method ChangeAccountStatus(action: StaffAction) returns (refusal: Option<Refusal>)
      modifies this
      ensures Answers(ChangeStatus(old(Snapshot()), action), old(Snapshot()), refusal)
    {
      if status == Closed {
        return Some(StatusForbids);
      }
      var allowed, target := {Active}, Restricted;
      match action {
        case Restrict =>
        case Suspend => allowed, target := {Active, Restricted}, Suspended;
        case Restore => allowed, target := {Restricted, Suspended}, Active;
      }
      if status !in allowed {
        return Some(StatusForbids);
      }
      status := target;
      version := version + 1;
      return None;
    }
  }
}
