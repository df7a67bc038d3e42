/** Sending one refund to the channel. The work is split over several transactions
    with a network call in between; any number of workers may be at it, and each may
    stop at any point. */
module RefundSubmissions {
  import opened Wrappers

  // What the channel is asked: the request's identity and the amount.
  datatype Request = Request(date: nat, seqId: nat, amount: nat)

  // The stored request; `responses` counts the answers recorded on it.
  datatype Row = Row(date: nat, responses: nat)

  datatype Worker =
    | Prepared(request: Request, submit: bool, seen: nat)
    | Submitted(request: Request)
    | Querying

  /** `refundNo` and `external` are the refund's number and its external leg, which
      never change; `workers` holds those under way. */
  datatype State = State(
    refundNo: nat,
    external: nat,
    succeeded: bool,
    row: Option<Row>,
    workers: map<nat, Worker>,
    submissions: seq<Request>)

  datatype Step =
    | Prepare(worker: nat, today: nat)
    | Submit(worker: nat)
    | RecordResponse(worker: nat)
    | RecordQuery(worker: nat, success: bool)
    | Notified(success: bool)
    | Crash(worker: nat)

  predicate HasResponse(s: State) { s.row.Some? && s.row.value.responses > 0 }

  function Respond(s: State): State {
    if s.row.None? then s else s.(row := Some(s.row.value.(responses := s.row.value.responses + 1)))
  }

  function Drop(s: State, w: nat): State { s.(workers := s.workers - {w}) }

  // A step that is not possible in a state leaves it unchanged.
  function Next(s: State, step: Step): State {
    match step
    case Prepare(w, today) =>
      if w in s.workers || s.succeeded then s
      else
        var row := if s.row.Some? then s.row.value else Row(today, 0);
        s.(row := Some(row),
           workers := s.workers[w := Prepared(Request(row.date, s.refundNo, s.external), row.responses == 0, row.responses)])
    case Submit(w) =>
      if w !in s.workers || !s.workers[w].Prepared? then s
      else if !s.workers[w].submit then s.(workers := s.workers[w := Querying])
      else s.(submissions := s.submissions + [s.workers[w].request], workers := s.workers[w := Submitted(s.workers[w].request)])
    case RecordResponse(w) =>
      if w !in s.workers || !s.workers[w].Submitted? then s else Respond(s.(workers := s.workers[w := Querying]))
    case RecordQuery(w, success) =>
      if w !in s.workers || !s.workers[w].Querying? then s
      else
        var answered := Respond(Drop(s, w));
        if success then answered.(succeeded := true) else answered
    case Notified(success) =>
      if s.row.None? then s
      else if success then Respond(s).(succeeded := true) else Respond(s)
    case Crash(w) => Drop(s, w)
  }

  function Start(refundNo: nat, external: nat): State { State(refundNo, external, false, None, map[], []) }

  function Run(s: State, steps: seq<Step>): State {
    if steps == [] then s else Next(Run(s, steps[..|steps| - 1]), steps[|steps| - 1])
  }

  // ----- what is put on record -----

  // In this state the step brings an answer of the channel.
  predicate Hears(s: State, step: Step) {
    match step
    case RecordResponse(w) => w in s.workers && s.workers[w].Submitted?
    case RecordQuery(w, _) => w in s.workers && s.workers[w].Querying?
    case Notified(_) => s.row.Some?
    case _ => false
  }

  predicate SaysDone(step: Step) { (step.RecordQuery? || step.Notified?) && step.success }

  /** Every answer of the channel is put on record, and nothing else is; the refund is done
      exactly from the first query or notification that says so. */
  lemma AnswersAreRecorded(s: State, step: Step)
    requires Inv(s)
    ensures HasResponse(Next(s, step)) <==> HasResponse(s) || Hears(s, step)
    ensures Next(s, step).succeeded <==> s.succeeded || (Hears(s, step) && SaysDone(step))
  {
  }

  // ----- one identity -----

  // The only request this refund may ever be sent as.
  function TheRequest(s: State): Request
    requires s.row.Some?
  {
    Request(s.row.value.date, s.refundNo, s.external)
  }

  predicate Inv(s: State) {
    && (s.submissions != [] || s.workers != map[] ==> s.row.Some?)
    && (forall r :: r in s.submissions ==> s.row.Some? && r == TheRequest(s))
    && (forall w :: w in s.workers && !s.workers[w].Querying? ==> s.row.Some? && s.workers[w].request == TheRequest(s))
    && (forall w :: w in s.workers && s.workers[w].Prepared? ==>
          && s.row.Some? && s.workers[w].seen <= s.row.value.responses
          && (s.workers[w].submit <==> s.workers[w].seen == 0))
  }

  lemma NextKeepsInv(s: State, step: Step)
    requires Inv(s)
    ensures Inv(Next(s, step))
    ensures Next(s, step).external == s.external && Next(s, step).refundNo == s.refundNo
    ensures s.row.Some? ==> Next(s, step).row.Some? && TheRequest(Next(s, step)) == TheRequest(s)
  {
    match step
    case Prepare(w, _) =>
      assert w !in s.workers && !s.succeeded ==> Next(s, step).workers[w].Prepared?;
    case _ =>
  }

  lemma {:induction false} RunKeepsInv(refundNo: nat, external: nat, steps: seq<Step>)
    ensures Inv(Run(Start(refundNo, external), steps))
    ensures Run(Start(refundNo, external), steps).external == external
    ensures Run(Start(refundNo, external), steps).refundNo == refundNo
  {
    hide Next;
    if steps != [] {
      RunKeepsInv(refundNo, external, steps[..|steps| - 1]);
      NextKeepsInv(Run(Start(refundNo, external), steps[..|steps| - 1]), steps[|steps| - 1]);
    }
  }

  /** Whatever the workers do and wherever they stop, one refund is only ever sent
      under one identity and for its external leg: a channel that carries out each
      identity once pays it back once. */
  lemma OneIdentity(refundNo: nat, external: nat, steps: seq<Step>)
    ensures var sent := Run(Start(refundNo, external), steps).submissions;
      forall i, j :: 0 <= i < |sent| && 0 <= j < |sent| ==> sent[i] == sent[j] && sent[i].seqId == refundNo && sent[i].amount == external
  {
    RunKeepsInv(refundNo, external, steps);
    hide Run;
    var s := Run(Start(refundNo, external), steps);
    assert forall i :: 0 <= i < |s.submissions| ==> s.submissions[i] in s.submissions;
  }

  // ----- no sending after an answer -----

  // In this state the step sends the refund to the channel.
  predicate Sends(s: State, step: Step) {
    step.Submit? && step.worker in s.workers && s.workers[step.worker].Prepared? && s.workers[step.worker].submit
  }

  // The worker is about to send what it prepared.
  predicate Ready(s: State, w: nat) {
    w in s.workers && s.workers[w].Prepared? && s.workers[w].submit
  }

  /** Whoever sends the refund began while no answer was on record, and has been at
      it ever since: a worker that begins after an answer never sends. */
  lemma {:induction false} SendersBeganBefore(refundNo: nat, external: nat, steps: seq<Step>, w: nat) returns (j: nat)
    requires Ready(Run(Start(refundNo, external), steps), w)
    ensures j < |steps| && steps[j].Prepare? && steps[j].worker == w
    ensures !HasResponse(Run(Start(refundNo, external), steps[..j]))
    ensures forall k :: j < k <= |steps| ==> Ready(Run(Start(refundNo, external), steps[..k]), w)
  {
    var n := |steps| - 1;
    var before := Run(Start(refundNo, external), steps[..n]);
    assert steps[..|steps|] == steps;
    RunKeepsInv(refundNo, external, steps[..n]);
    if Ready(before, w) {
      j := SendersBeganBefore(refundNo, external, steps[..n], w);
      assert steps[..n][..j] == steps[..j];
      forall k | j < k <= |steps|
        ensures Ready(Run(Start(refundNo, external), steps[..k]), w)
      {
        if k <= n {
          assert steps[..n][..k] == steps[..k];
        } else {
          assert steps[..k] == steps;
        }
      }
    } else {
      j := n;
      NewlyReady(before, steps[n], w);
    }
  }

  // No step is taken by this worker.
  predicate LeavesAlone(steps: seq<Step>, w: nat) {
    forall step :: step in steps ==> step.Notified? || step.worker != w
  }

  /** A worker that has begun goes on to send, whatever the others do meanwhile, exactly
      if no answer was on record when it began. */
  lemma {:induction false} SendsIffNoAnswer(s: State, w: nat, today: nat, steps: seq<Step>)
    requires w !in s.workers && !s.succeeded && LeavesAlone(steps, w)
    ensures Ready(Run(Next(s, Prepare(w, today)), steps), w) <==> !HasResponse(s)
  {
    OthersLeaveIt(Next(s, Prepare(w, today)), w, steps);
    hide Run;
  }

  lemma {:induction false} OthersLeaveIt(s: State, w: nat, steps: seq<Step>)
    requires w in s.workers && LeavesAlone(steps, w)
    ensures w in Run(s, steps).workers && Run(s, steps).workers[w] == s.workers[w]
  {
    if steps != [] {
      var n := |steps| - 1;
      OthersLeaveIt(s, w, steps[..n]);
      assert steps[n] in steps;
    }
  }

  lemma NewlyReady(s: State, step: Step, w: nat)
    requires !Ready(s, w) && Ready(Next(s, step), w)
    ensures step.Prepare? && step.worker == w && !HasResponse(s)
  {
  }

  // No worker begins, and no notification is handled, while a worker is under way.
  predicate OneAtATime(s: State, steps: seq<Step>) {
    steps != [] ==>
      && OneAtATime(s, steps[..|steps| - 1])
      && (steps[|steps| - 1].Prepare? || steps[|steps| - 1].Notified? ==> Run(s, steps[..|steps| - 1]).workers == map[])
  }

  predicate Quiet(s: State) {
    && (forall w, v :: w in s.workers && v in s.workers ==> w == v)
    && (forall w :: w in s.workers && s.workers[w].Prepared? && s.workers[w].submit ==> !HasResponse(s))
  }

  lemma NextKeepsQuiet(s: State, step: Step)
    requires Inv(s) && Quiet(s)
    requires step.Prepare? || step.Notified? ==> s.workers == map[]
    ensures Quiet(Next(s, step))
  {
  }

  /** When the workers and the notifications take turns, crashes included, nothing is
      ever sent again after an answer has been recorded. */
  lemma {:induction false} NothingSentAfterAnswer(refundNo: nat, external: nat, steps: seq<Step>, step: Step)
    requires OneAtATime(Start(refundNo, external), steps)
    ensures Quiet(Run(Start(refundNo, external), steps))
    ensures var s := Run(Start(refundNo, external), steps); HasResponse(s) ==> !Sends(s, step)
  {
    hide Next;
    if steps != [] {
      var n := |steps| - 1;
      NothingSentAfterAnswer(refundNo, external, steps[..n], step);
      RunKeepsInv(refundNo, external, steps[..n]);
      NextKeepsQuiet(Run(Start(refundNo, external), steps[..n]), steps[n]);
    }
  }

  // Two workers that overlap: the second sends after the first one's answer.
  lemma OverlapSendsAgain()
    ensures var s := Run(Start(7, 100), [Prepare(1, 20260101), Prepare(2, 20260101), Submit(1), RecordResponse(1)]);
      HasResponse(s) && Sends(s, Submit(2))
  {
    var s0 := Start(7, 100);
    var s1 := Next(s0, Prepare(1, 20260101));
    var s2 := Next(s1, Prepare(2, 20260101));
    var s3 := Next(s2, Submit(1));
    var s4 := Next(s3, RecordResponse(1));
    var all := [Prepare(1, 20260101), Prepare(2, 20260101), Submit(1), RecordResponse(1)];
    assert all[..3] == [Prepare(1, 20260101), Prepare(2, 20260101), Submit(1)];
    assert all[..3][..2] == [Prepare(1, 20260101), Prepare(2, 20260101)];
    assert all[..3][..2][..1] == [Prepare(1, 20260101)];
    assert all[..3][..2][..1][..0] == [];
    assert Run(s0, all[..3][..2][..1]) == s1;
    assert Run(s0, all[..3][..2]) == s2;
    assert Run(s0, all[..3]) == s3;
    assert Run(s0, all) == s4;
    assert 2 in s4.workers && s4.workers[2].Prepared?;
  }
}
