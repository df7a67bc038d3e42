/** The periodic job that carries out due account closures: at most 200 at a time,
    those never checked first, then the ones checked longest ago. */
module ClosureQueue {
  import opened Wrappers

  type Time = int

  const BATCH := 200

  // The open closure requests, by user.
  datatype Entry = Entry(open: bool, executeAfter: Time, checkedAt: Option<Time>)

  type Queue = map<nat, Entry>

  datatype Outcome = Skipped | HeldUp | Finished | Failed

  predicate IsDue(e: Entry, now: Time) { e.open && e.executeAfter <= now }

  function DueSet(q: Queue, now: Time): set<nat> { set u | u in q && IsDue(q[u], now) }

  // The order of the query: never checked first, then oldest check, then earliest date.
  predicate Precedes(e: Entry, f: Entry) {
    match (e.checkedAt, f.checkedAt)
    case (None, None) => e.executeAfter <= f.executeAfter
    case (None, Some(_)) => true
    case (Some(_), None) => false
    case (Some(a), Some(b)) => a < b || (a == b && e.executeAfter <= f.executeAfter)
  }

  function Members(batch: seq<nat>): set<nat> { set u | u in batch }

  // What the query may return: the first due requests in that order, ties in any order.
  predicate IsBatch(q: Queue, batch: seq<nat>, now: Time) {
    && (forall i, j :: 0 <= i < j < |batch| ==> batch[i] != batch[j])
    && (forall u :: u in batch ==> u in q && IsDue(q[u], now))
    && |batch| == (if |DueSet(q, now)| < BATCH then |DueSet(q, now)| else BATCH)
    && (forall u, v :: u in batch && v in DueSet(q, now) && v !in batch ==> Precedes(q[u], q[v]))
  }

  function Handle(e: Entry, outcome: Outcome, now: Time): Entry {
    match outcome
    case Skipped => e
    case HeldUp => e.(checkedAt := Some(now))
    case Finished => e.(open := false, checkedAt := Some(now))
    case Failed => e.(checkedAt := Some(now))
  }

  function HandleAll(q: Queue, batch: seq<nat>, outcome: nat -> Outcome, now: Time): (r: Queue)
    requires forall u :: u in batch ==> u in q
    ensures r.Keys == q.Keys
  {
    map u | u in q :: if u in batch then Handle(q[u], outcome(u), now) else q[u]
  }

  class Scheduler {
    var queue: Queue

    constructor (queue: Queue)
      ensures this.queue == queue
    {
      this.queue := queue;
    }

    method ProcessOne(user: nat, outcome: Outcome, now: Time)
      requires user in queue
      modifies this
      ensures queue == old(queue)[user := Handle(old(queue)[user], outcome, now)]
    {
      match outcome {
        case Skipped =>
        case HeldUp => queue := queue[user := queue[user].(checkedAt := Some(now))];
        case Finished => queue := queue[user := queue[user].(open := false, checkedAt := Some(now))];
        case Failed => queue := queue[user := queue[user].(checkedAt := Some(now))];
      }
    }

    // One round. `batch` is the query's answer; `outcome` what becomes of each request.
    method ProcessDue(batch: seq<nat>, outcome: nat -> Outcome, now: Time)
      requires IsBatch(queue, batch, now)
      modifies this
      ensures queue == HandleAll(old(queue), batch, outcome, now)
    {
      hide DueSet, Precedes, Handle;
      ghost var was := queue;
      var i := 0;
      while i < |batch|
        invariant i <= |batch|
        invariant queue == HandleAll(was, batch[..i], outcome, now)
      {
        assert batch[..i + 1] == batch[..i] + [batch[i]];
        ProcessOne(batch[i], outcome(batch[i]), now);
        i := i + 1;
      }
      assert batch[..|batch|] == batch;
    }
  }

  // ----- fairness -----

  // Open requests not looked at since t.
  function Waiting(q: Queue, t: Time): set<nat> {
    set u | u in q && q[u].open && (q[u].checkedAt.None? || q[u].checkedAt.value < t)
  }

  datatype Round = Round(batch: seq<nat>, outcome: nat -> Outcome, now: Time)

  ghost function AfterRounds(q: Queue, rounds: seq<Round>): (r: Queue)
    ensures r.Keys == q.Keys
  {
    if rounds == [] then q
    else
      var before := AfterRounds(q, rounds[..|rounds| - 1]);
      var r := rounds[|rounds| - 1];
      if forall u :: u in r.batch ==> u in before then HandleAll(before, r.batch, r.outcome, r.now) else before
  }

  // What a round looks at: its batch without the rows that are locked.
  function Served(batch: seq<nat>, outcome: nat -> Outcome): set<nat> {
    set u | u in batch && outcome(u) != Skipped
  }

  function Locked(batch: seq<nat>, outcome: nat -> Outcome): set<nat> {
    set u | u in batch && outcome(u) == Skipped
  }

  function ServedIn(rounds: seq<Round>): set<nat> {
    if rounds == [] then {}
    else ServedIn(rounds[..|rounds| - 1]) + Served(rounds[|rounds| - 1].batch, rounds[|rounds| - 1].outcome)
  }

  // Every round takes what the query gives it, at or after t. Rows may be locked.
  ghost predicate Regular(q: Queue, rounds: seq<Round>, t: Time) {
    rounds != [] ==>
      && Regular(q, rounds[..|rounds| - 1], t)
      && t <= rounds[|rounds| - 1].now
      && IsBatch(AfterRounds(q, rounds[..|rounds| - 1]), rounds[|rounds| - 1].batch, rounds[|rounds| - 1].now)
  }

  // No other rows than these are ever found locked.
  ghost predicate OnlyLocked(rounds: seq<Round>, rows: set<nat>) {
    forall r :: r in rounds ==> Locked(r.batch, r.outcome) <= rows
  }

  // Finished, or looked at since t.
  predicate LookedAt(q: Queue, u: nat, t: Time)
    requires u in q
  {
    !q[u].open || (q[u].checkedAt.Some? && q[u].checkedAt.value >= t)
  }

  lemma {:induction false} MembersCount(batch: seq<nat>)
    requires forall i, j :: 0 <= i < j < |batch| ==> batch[i] != batch[j]
    ensures |Members(batch)| == |batch|
  {
    if batch != [] {
      var n := |batch| - 1;
      MembersCount(batch[..n]);
      assert Members(batch) == Members(batch[..n]) + {batch[n]};
    }
  }

  lemma SubsetCount(a: set<nat>, b: set<nat>)
    requires a <= b
    ensures |a| <= |b| && (|a| == |b| ==> a == b)
  {
    assert b == a + (b - a);
  }

  // A batch that leaves out a waiting request is full, and of waiting requests only.
  lemma WaitingFirst(q: Queue, batch: seq<nat>, now: Time, t: Time, x: nat)
    requires IsBatch(q, batch, now) && t <= now
    requires x in Waiting(q, t) && IsDue(q[x], now) && x !in batch
    ensures |batch| == BATCH && Members(batch) <= Waiting(q, t)
  {
    assert x in DueSet(q, now);
    MembersCount(batch);
    SubsetCount(Members(batch), DueSet(q, now));
    forall u | u in batch
      ensures u in Waiting(q, t)
    {
      assert Precedes(q[u], q[x]);
    }
  }

  /** A round closes the requests it finishes and no other, dates the ones it looks at,
      and leaves the rest of the queue as it was. */
  lemma RoundHandles(q: Queue, batch: seq<nat>, outcome: nat -> Outcome, now: Time, u: nat)
    requires IsBatch(q, batch, now) && u in q
    ensures var e := HandleAll(q, batch, outcome, now)[u];
      && (e.open <==> q[u].open && !(u in batch && outcome(u) == Finished))
      && e.executeAfter == q[u].executeAfter
      && e.checkedAt == (if u in Served(batch, outcome) then Some(now) else q[u].checkedAt)
  {
    hide Precedes, DueSet;
  }

  /** Exactly the requests of the batch that are not locked stop waiting. */
  lemma RoundServesExactly(q: Queue, batch: seq<nat>, outcome: nat -> Outcome, now: Time, t: Time)
    requires IsBatch(q, batch, now) && t <= now
    ensures Waiting(HandleAll(q, batch, outcome, now), t) == Waiting(q, t) - Served(batch, outcome)
  {
    hide Precedes, DueSet;
  }

  lemma {:induction false} RunServesExactly(q: Queue, rounds: seq<Round>, t: Time)
    requires Regular(q, rounds, t)
    ensures Waiting(AfterRounds(q, rounds), t) == Waiting(q, t) - ServedIn(rounds)
  {
    if rounds != [] {
      var n := |rounds| - 1;
      RunServesExactly(q, rounds[..n], t);
      RoundServesExactly(AfterRounds(q, rounds[..n]), rounds[n].batch, rounds[n].outcome, rounds[n].now, t);
      hide Waiting, Served, IsBatch;
    }
  }

  lemma {:induction false} ServedInSomeRound(rounds: seq<Round>, u: nat)
    ensures u in ServedIn(rounds) <==> exists r :: r in rounds && u in Served(r.batch, r.outcome)
  {
    hide Served;
    if rounds != [] {
      var n := |rounds| - 1;
      ServedInSomeRound(rounds[..n], u);
      assert rounds == rounds[..n] + [rounds[n]];
    }
  }

  /** Whatever is locked and when: everyone has been looked at exactly if each waiting
      request came up in some round in which it was not locked. */
  lemma EveryoneIsCheckedIff(q: Queue, rounds: seq<Round>, t: Time)
    requires Regular(q, rounds, t)
    ensures (forall u :: u in q ==> LookedAt(AfterRounds(q, rounds), u, t)) <==>
      forall u :: u in Waiting(q, t) ==> exists r :: r in rounds && u in Served(r.batch, r.outcome)
  {
    RunServesExactly(q, rounds, t);
    var after := AfterRounds(q, rounds);
    assert forall u :: u in q ==> (LookedAt(after, u, t) <==> u !in Waiting(after, t));
    forall u
      ensures u in ServedIn(rounds) <==> exists r :: r in rounds && u in Served(r.batch, r.outcome)
    {
      ServedInSomeRound(rounds, u);
    }
    assert Waiting(q, t) <= q.Keys;
    hide Served, Regular, LookedAt, Waiting;
  }

  /** While more than 200 requests wait, a round that finds at most k rows locked looks
      at 200 - k of them at least; once 200 or fewer wait, it looks at all but k. */
  lemma RoundServesMost(q: Queue, batch: seq<nat>, outcome: nat -> Outcome, now: Time, t: Time, k: nat)
    requires IsBatch(q, batch, now) && t <= now && |Locked(batch, outcome)| <= k
    requires forall u :: u in Waiting(q, t) ==> IsDue(q[u], now)
    ensures var w, w' := Waiting(q, t), Waiting(HandleAll(q, batch, outcome, now), t);
      |w'| <= (if |w| > BATCH then |w| - (BATCH - k) else k)
  {
    RoundServesExactly(q, batch, outcome, now, t);
    var w, served, locked := Waiting(q, t), Served(batch, outcome), Locked(batch, outcome);
    MembersCount(batch);
    assert Members(batch) == served + locked;
    if w <= Members(batch) {
      SubsetCount(w, Members(batch));
      assert w - served <= locked;
      SubsetCount(w - served, locked);
    } else {
      var x :| x in w && x !in Members(batch);
      WaitingFirst(q, batch, now, t, x);
      OverFullBatch(w, Members(batch), served, locked, x);
    }
  }

  lemma OverFullBatch(w: set<nat>, members: set<nat>, served: set<nat>, locked: set<nat>, x: nat)
    requires members <= w && x in w && x !in members && |members| == BATCH
    requires members == served + locked && served !! locked
    ensures |w| > BATCH && |w - served| == |w| - BATCH + |locked|
  {
    SubsetCount(members + {x}, w);
    assert w == (w - served) + served;
  }

  lemma {:induction false} DatesStay(q: Queue, rounds: seq<Round>)
    ensures forall u :: u in q ==> AfterRounds(q, rounds)[u].executeAfter == q[u].executeAfter
  {
    if rounds != [] {
      DatesStay(q, rounds[..|rounds| - 1]);
    }
  }

  // One round leaves fewer of the requests that are never locked.
  lemma UnlockedShrink(q: Queue, batch: seq<nat>, outcome: nat -> Outcome, now: Time, t: Time, rows: set<nat>)
    requires IsBatch(q, batch, now) && t <= now && Locked(batch, outcome) <= rows && |rows| < BATCH
    requires forall u :: u in Waiting(q, t) ==> IsDue(q[u], now)
    ensures var u, u' := Waiting(q, t) - rows, Waiting(HandleAll(q, batch, outcome, now), t) - rows;
      u' == {} || |u'| <= |u| - (BATCH - |rows|)
  {
    RoundServesExactly(q, batch, outcome, now, t);
    var w, served, locked := Waiting(q, t), Served(batch, outcome), Locked(batch, outcome);
    var u' := w - served - rows;
    if u' != {} {
      var x :| x in u';
      WaitingFirst(q, batch, now, t, x);
      MembersCount(batch);
      assert Members(batch) == (Members(batch) - rows) + (Members(batch) * rows);
      SubsetCount(Members(batch) * rows, rows);
      assert Members(batch) - rows <= served;
      assert w - rows == u' + (served - rows);
      SubsetCount(Members(batch) - rows, served - rows);
    }
  }

  lemma OneMoreRound(q: Queue, rounds: seq<Round>, t: Time, rows: set<nat>)
    requires rounds != [] && Regular(q, rounds, t) && OnlyLocked(rounds, rows) && |rows| < BATCH
    requires forall u :: u in q ==> q[u].executeAfter <= t
    ensures var u, u' := Waiting(AfterRounds(q, rounds[..|rounds| - 1]), t) - rows, Waiting(AfterRounds(q, rounds), t) - rows;
      && (u == {} ==> u' == {})
      && (u' == {} || |u'| <= |u| - (BATCH - |rows|))
  {
    var n := |rounds| - 1;
    var last := rounds[n];
    assert last in rounds;
    DatesStay(q, rounds[..n]);
    UnlockedShrink(AfterRounds(q, rounds[..n]), last.batch, last.outcome, last.now, t, rows);
    StillNone(q, rounds, t, rows);
  }

  lemma {:induction false} OthersShrink(q: Queue, rounds: seq<Round>, t: Time, rows: set<nat>)
    requires Regular(q, rounds, t) && OnlyLocked(rounds, rows) && |rows| < BATCH
    requires forall u :: u in q ==> q[u].executeAfter <= t
    ensures var w := Waiting(AfterRounds(q, rounds), t) - rows;
      w == {} || |w| <= |Waiting(q, t) - rows| - (BATCH - |rows|) * |rounds|
  {
    hide Waiting, IsBatch, Locked;
    if rounds != [] {
      var n := |rounds| - 1;
      assert OnlyLocked(rounds[..n], rows);
      OthersShrink(q, rounds[..n], t, rows);
      OneMoreRound(q, rounds, t, rows);
      OneMoreTime(BATCH - |rows|, n);
      hide AfterRounds, Regular, OnlyLocked;
    }
  }

  lemma OneMoreTime(d: nat, n: nat)
    ensures d * (n + 1) == d * n + d
  {
  }

  /** Fairness under contention: with fewer than 200 rows locked, everyone else is
      looked at within n / (200 - k) rounds, rounded up, where n of them wait and k
      rows are locked. */
  lemma OthersAreChecked(q: Queue, rounds: seq<Round>, t: Time, rows: set<nat>)
    requires Regular(q, rounds, t) && OnlyLocked(rounds, rows) && |rows| < BATCH
    requires forall u :: u in q ==> q[u].executeAfter <= t
    ensures (BATCH - |rows|) * |rounds| >= |Waiting(q, t) - rows| ==>
      forall u :: u in q && u !in rows ==> LookedAt(AfterRounds(q, rounds), u, t)
  {
    OthersShrink(q, rounds, t, rows);
    hide Regular, OnlyLocked, AfterRounds;
    var w := Waiting(AfterRounds(q, rounds), t) - rows;
    forall u | u in q && u !in rows && w == {}
      ensures LookedAt(AfterRounds(q, rounds), u, t)
    {
      assert u !in w;
    }
  }

  // A request that no longer waits never waits again.
  lemma StillNone(q: Queue, rounds: seq<Round>, t: Time, rows: set<nat>)
    requires rounds != [] && Regular(q, rounds, t)
    ensures Waiting(AfterRounds(q, rounds[..|rounds| - 1]), t) - rows == {} ==> Waiting(AfterRounds(q, rounds), t) - rows == {}
  {
    var n := |rounds| - 1;
    RoundServesExactly(AfterRounds(q, rounds[..n]), rounds[n].batch, rounds[n].outcome, rounds[n].now, t);
    hide Waiting, Served, IsBatch;
  }

  /** Fairness without contention: of n requests due at time t, whatever mix of held
      up, finished and failing ones they are, each round deals with 200 that had been
      waiting longest, so that after ceil(n / 200) rounds every one has been looked at. */
  lemma EveryoneIsChecked(q: Queue, rounds: seq<Round>, t: Time)
    requires Regular(q, rounds, t) && OnlyLocked(rounds, {})
    requires forall u :: u in q ==> q[u].executeAfter <= t
    ensures |Waiting(AfterRounds(q, rounds), t)| <= (if |Waiting(q, t)| <= BATCH * |rounds| then 0 else |Waiting(q, t)| - BATCH * |rounds|)
    ensures BATCH * |rounds| >= |Waiting(q, t)| ==> forall u :: u in q ==> LookedAt(AfterRounds(q, rounds), u, t)
  {
    OthersAreChecked(q, rounds, t, {});
    OthersShrink(q, rounds, t, {});
    hide AfterRounds, Regular, OnlyLocked, LookedAt;
    assert Waiting(q, t) - {} == Waiting(q, t);
    assert Waiting(AfterRounds(q, rounds), t) - {} == Waiting(AfterRounds(q, rounds), t);
  }

  // ----- starvation -----

  /** A full batch of locked rows changes nothing, so that the query returns the same
      batch again, for ever. */
  lemma LockedBatchRepeats(q: Queue, batch: seq<nat>, outcome: nat -> Outcome, now: Time, later: Time)
    requires IsBatch(q, batch, now) && |batch| == BATCH && now <= later
    requires forall u :: u in batch ==> outcome(u) == Skipped
    requires DueSet(q, later) == DueSet(q, now)
    ensures HandleAll(q, batch, outcome, now) == q && IsBatch(HandleAll(q, batch, outcome, now), batch, later)
  {
  }

  function Users(n: nat): (r: seq<nat>)
    ensures |r| == n && forall i :: 0 <= i < n ==> r[i] == i
  {
    seq(n, i requires i >= 0 => i)
  }

  function NeverChecked(users: seq<nat>): Queue {
    map u | u in users :: Entry(true, if u < BATCH then 0 else 1, None)
  }

  // 201 requests never checked; the one of user 200 has the latest date.
  function Crowd(): Queue { NeverChecked(Users(BATCH + 1)) }

  // The rows of the users below 200 are locked.
  function LockedBelow(u: nat): Outcome { if u < BATCH then Skipped else HeldUp }

  function FirstBatch(): seq<nat> { Users(BATCH) }

  lemma CrowdIsServed()
    ensures IsBatch(Crowd(), FirstBatch(), 1) && |FirstBatch()| == BATCH
    ensures forall u :: u in FirstBatch() ==> LockedBelow(u) == Skipped
    ensures |Locked(FirstBatch(), LockedBelow)| == BATCH
    ensures BATCH in Crowd() && !LookedAt(Crowd(), BATCH, 1)
  {
    var q, batch := Crowd(), FirstBatch();
    assert Users(BATCH + 1)[BATCH] == BATCH;
    assert forall u :: u in batch ==> Users(BATCH + 1)[u] == u;
    MembersCount(batch);
    assert Locked(batch, LockedBelow) == Members(batch);
    assert BATCH in DueSet(q, 1) && BATCH !in Members(batch);
    assert Members(batch) <= DueSet(q, 1);
    SubsetCount(Members(batch), DueSet(q, 1));
  }

  /** With 200 rows locked the promise is lost: however many rounds are run, the
      request of user 200, which nobody locks, is never looked at. */
  lemma {:induction false} LockedRowsStarve(m: nat) returns (rounds: seq<Round>)
    ensures |rounds| == m && Regular(Crowd(), rounds, 1)
    ensures forall r :: r in rounds ==> |Locked(r.batch, r.outcome)| == BATCH && r.outcome(BATCH) != Skipped
    ensures AfterRounds(Crowd(), rounds) == Crowd() && BATCH in Crowd() && !LookedAt(AfterRounds(Crowd(), rounds), BATCH, 1)
  {
    hide Crowd, FirstBatch, IsBatch, Locked, LookedAt;
    CrowdIsServed();
    if m == 0 {
      rounds := [];
    } else {
      var before := LockedRowsStarve(m - 1);
      LockedBatchRepeats(Crowd(), FirstBatch(), LockedBelow, 1, 1);
      rounds := before + [Round(FirstBatch(), LockedBelow, 1)];
      assert rounds[..m - 1] == before;
    }
  }
}
