# Money, seats and accounts: a verified model

This project models how the platform handles the money and the seats of an activity, and a
few services beside it, and proves what they keep over every run.

- **One activity.** People sign up, hold a seat while they pay, pay through a wallet and an
  external channel, cancel, are refunded, open after-sales cases; the activity forms, starts,
  ends, is cancelled or fails to form; the organizer is paid at the end. `WalletAllocations`,
  `PaymentOrders`, `Participations`, `Settlements` and `Activities` define every service call
  as a function on a `Book` of the activity; `OrderInvariants` to `ActivitySteps` prove the
  invariant of the book; `ActivityMoves`, `ActivityHistory`, `ActivityRuns` and `PaymentRuns`
  prove what holds over whole runs: any calls in any order, at times that never go back,
  including late, early and repeated channel answers. `SeatOutcomes` and `CaseOutcomes` say of
  each call, from the rows and dates alone, when it is accepted and what it leaves.
  `ContraryAnswers` holds one run in full. `ActivityDesks` holds the services as they run:
  methods that fetch, change and save rows, each proved to do what its function says.
- **Before it.** `PublishPayments`: the organizer's publishing payments up to the review.
- **The channel.** `RefundSubmissions` and `PaymentSessions`: the functions that talk to the
  channel between two transactions, with any number of workers that may stop anywhere.
- **Staff.** `RefundAuthority` and `RefundAuthorityRuns`: limits per order and per day for refund approvals.
  `ManualRefunds`: the register of refunds made by hand.
- **Accounts.** `AccountClosures`, `BusinessDays`, `ClosureQueue`: closing an account, its
  waiting period in working days, and the periodic job.

A service call is one database transaction: refused, it changes nothing. Where the code splits
a call into several transactions, the steps are modelled one by one.

## What does not hold

Four things a reader might expect are not true of the code. Each comes with an input or a run
that shows it, and with the condition under which the code does what one expects.

- The deadline of an account closure does not always grow with the moment of the request: a
  request late on a Saturday gets a later deadline than one early on the Sunday after it
  (`SundayBeatsSaturday`, and with the delivered calendar `SundayBeatsSaturdayIn2026`). The
  exact condition is `MomentMonotoneIff`.
- A refund can be sent to the channel again after an answer was recorded, when two workers
  overlap (`OverlapSendsAgain`): a worker sends exactly if it began while no answer was on
  record (`SendsIffNoAnswer`, `SendersBeganBefore`). It is never sent under another identity
  (`OneIdentity`), and never after an answer when workers and notifications take turns
  (`NothingSentAfterAnswer`).
- The channel's final failure is written without looking at the stored status, so a failure
  reported after a success parts an order's status from its refunds and can leave two refunds
  unfinished (`StatusCanPart`, `TwoCanStayUnfinished`, and as a run of the whole activity
  `OneContraryAnswer`). The exact conditions are `StatusSurvivesFailureIff` and
  `OneUnfinishedSurvivesFailureIff`.
- The closure job is not fair under every lock contention. It is with fewer than 200 rows locked
  (`OthersAreChecked`), and with 200 it need not be (`LockedRowsStarve`). For any pattern of
  locks, `EveryoneIsCheckedIff` says exactly when everyone has been looked at.

## Assumptions

- Transactions are serialised, and rows are locked as the code locks them.
- Times are whole seconds and never go back from one call to the next; the time of payment a
  channel reports is unconstrained.
- The rules of an activity (capacity, amounts, dates, refund rules) do not change once it is
  published; the minimum of participants is between 1 and the capacity, the principal is at
  least 1, and the formation deadline, start and end follow each other.
- `eligible`, `cityOpen`, `guards`, `authorised`, wallet balances and platform periods are
  inputs of the calls, so every value they could take is covered.
- The wallet's frozen balance suffices for what is held of it.

## Model

| member | source | states |
|---|---|---|
| `WalletAllocations.SplitOfAnySeries` | activities/services.py:115-145 | for any series of refunds of one payment whose wallet part was spent: no step is refused, no leg is negative, the wallet has received the floor of its proportional share after every prefix and exactly its share at the end, and neither side returns more than it paid |
| `WalletAllocations.ChoppingDoesNotMatter` | activities/services.py:134-145 | two ways of cutting up the same total return the same amount over each leg |
| `WalletAllocations.TargetStep` | activities/services.py:136-144 | one more refund never lowers the wallet share and never raises it by more than the refund, so the clipping at zero never clips |
| `WalletAllocations.SplitByBalance` | wallets/services.py:144-185 | a first split takes all the wallet has up to the payable amount, or nothing when the channel is to take it all; an existing split is given back as it is, or refused for another amount or after its release |
| `OrderInvariants.LatePaymentKeepsOk` | activities/huifu.py:562-606 | a late payment of an unpaid order is never refused its refund, which gives back exactly what the channel took |
| `OrderInvariants.AddRefundKeepsOk` | activities/services.py:893-978 | a new refund keeps every invariant of its order: reservations, legs, receipts, stage, lateness |
| `OrderInvariants.RefundAcceptedIff` | activities/services.py:922-947 | a refund is accepted exactly if what is reserved with it stays within principal and fee and, once the wallet part is let go, within the channel's part |
| `OrderInvariants.UnbookedRefundFits` | wallets/services.py:279-356 | whatever the wallet has booked, a refund it has not booked still fits into each leg |
| `OrderInvariants.CompletionKeepsOk` | activities/services.py:1006-1062 | a refund on record can always be completed, never refused by the wallet, and keeps the order's invariants |
| `OrderInvariants.PayInTimeKeepsOk` | activities/huifu.py:569-606 | an order still open can always be paid in time, because its wallet part is held |
| `OrderMoves.MoveKeepsLedger` | activities/services.py:1029-1062 | each of the eight ways an order can change keeps its status in step with its succeeded refunds, and at most one refund unfinished, if the channel takes back no answer |
| `OrderMoves.StatusSurvivesFailureIff` | activities/huifu.py:1184-1196 | a channel failure written over a success parts status and ledger, unless the order was partly refunded and still is: the exact condition |
| `OrderMoves.OneUnfinishedSurvivesFailureIff` | activities/huifu.py:1184-1196 | the exact condition under which such a failure leaves at most one unfinished refund |
| `OrderMoves.StatusCanPart` | activities/huifu.py:1184-1196 | a concrete order whose status the failure parts from its ledger |
| `OrderMoves.TwoCanStayUnfinished` | activities/huifu.py:1184-1196 | a concrete order that the failure leaves with two unfinished refunds |
| `OrderMoves.StepOutcome` | activities/services.py:1006-1087 | what taking up, completing and failing a refund leaves on that refund's row, and on no other; only a failure of a refund without a channel part is refused |
| `ParticipationInvariants.SuccessKeepsOk` | activities/huifu.py:526-668 | a channel success, whenever it comes and however often, is never refused and either seats the participant or leaves the seats as they were |
| `ParticipationInvariants.LateKeepsOk` | activities/huifu.py:553-561 | a late success leaves the participation's status alone and gives the captured amount back |
| `ParticipationInvariants.CompensationIsTheLatePayment` | activities/huifu.py:862-933 | the job queued when an order closes is either the late payment itself or changes nothing: it never adds a second refund |
| `ParticipationInvariants.ExpireDueKeepsOk` | activities/services.py:577-596 | after the sweep a participation with an open order is within its hold; seats are never taken by the sweep |
| `ParticipationInvariants.AdvanceKeepsOk` | activities/services.py:1006-1087 | recording any progress of a refund changes no seat, no reservation and no margin; taking it up or completing it is never refused |
| `ParticipationInvariants.ApproveKeepsOk` | backoffice/services.py:311-392 | an approval keeps the participation's invariants and takes no seat |
| `ParticipationOutcomes.RuleWithLongestNotice` | activities/services.py:860-867 | the rule applied is the met rule with the longest notice, the first among equals; with none met nothing is given back |
| `ParticipationOutcomes.RoundsHalfUp` | activities/services.py:851-852 | percentages are rounded to the nearest unit, halves up |
| `ParticipationOutcomes.SelfCancellationByRule` | activities/services.py:1156-1217 | giving up a seat before the start makes one refund on the newest order, by the rule that applies; refund and retained principal make up what was paid, and the rest goes to the organizer exactly if there is any |
| `ParticipationOutcomes.MassCancellationInFull` | activities/services.py:1284-1345 | a mass cancellation refunds a seat's order in full and is never refused |
| `ParticipationOutcomes.CaseAsksForTheRest` | activities/services.py:1255-1280 | a new case asks for exactly what is left of the newest refundable order, or for no more when staff register it on an order with nothing unfinished; it is never empty |
| `ParticipationOutcomes.ApprovalRefundsOnce` | backoffice/services.py:319-392 | an approval with authority adds exactly one pending refund of the approved amounts to the newest refundable order and settles the case with it; without authority only the supervisor flag is set |
| `ParticipationOutcomes.CaseAcceptedIff` | activities/services.py:1221-1280 | a case can be registered exactly if none is open and something is left to give back, by staff only for amounts that are left on an order with nothing unfinished |
| `ParticipationOutcomes.ApprovalAcceptedIff` | backoffice/services.py:311-349 | an approval is accepted exactly if the case is undecided and the amounts are asked for, not empty, and left to give back on an order with nothing unfinished |
| `SettlementProofs.NothingClips` | activities/services.py:1468-1492 | no `max(0, ...)` of the calculation ever clips |
| `SettlementProofs.SettlementConserves` | activities/services.py:1425-1524 | payout, unallocated principal, returned principal and publishing refund make up the principal paid; the same for the service fee |
| `SettlementProofs.LeftIsDeclared` | activities/services.py:1485-1491 | an order leaves to the organizer the lesser of principal not given back and principal withheld by its succeeded refunds, which is all the principal not given back once a refund by rule has been carried out, and nothing otherwise |
| `SettlementProofs.PayoutExactly` | activities/services.py:1462-1524 | the payout to the unit: what is left of the publishing principal, the principal of everyone with a seat, and what those who gave theirs up by rule left behind |
| `SettlementProofs.PayoutIsCovered` | activities/services.py:1425-1524 | with no after-sales case open, the payout is covered by paid principal that no refund in any status has reserved |
| `SettlementProofs.ParticipantShare` | activities/services.py:1462-1491 | the participants' part of the payout is the full principal of everyone who has a seat, and of nobody else |
| `SettlementProofs.CashAddsUp` | activities/services.py:823-844 | all cash that wallet and channel paid is reserved for refunds, or is the margin the organizer may be paid from, or is kept as service fee; the margin is at most principal paid minus principal reserved |
| `SettlementProofs.LateGivesAllBack` | activities/huifu.py:562-668 | a late order has given back, or reserved to give back, exactly all it brought in |
| `ActivitySteps.SweepKeepsOk` | activities/services.py:525-533 | after the sweep, seats taken or held by an open order are among those the capacity check counts |
| `ActivitySteps.CancelEverythingKeepsOk` | activities/services.py:1284-1345 | cancelling a whole activity is never blocked by a participant, and each row is changed by the mass cancellation |
| `ActivitySteps.NextKeepsOk` | activities/services.py:518-1850 | every service call, refused or not, keeps the invariant of the book: seats, reservations, receipts, formation, settlement |
| `ActivityMoves.NextMoves` | activities/services.py:518-1850 | every service call changes each order by one of eight moves at most, and the only new orders are open ones |
| `ActivityHistory.NextCourse` | activities/services.py:536-559 | every call follows the course of the activity; it forms only with enough participants, falls back only with too few before the formation deadline, ends early only by a cancellation, and refunds the publishing payment only then |
| `ActivityHistory.NextSettles` | activities/services.py:1566-1743 | no call drops a settlement or moves its dates; a new one belongs to a completed activity, is dated from its end by both periods and is frozen exactly if a case is open; a paid one is left alone; one is paid only on or after its date, without dispute or open case, for the amounts then due |
| `ActivityHistory.RegisterFreezes` | activities/services.py:1623-1642 | a case newly registered on a completed activity leaves its settlement frozen |
| `ActivityHistory.PaidWhenDue` | activities/services.py:1681-1725 | a settlement the back office does not hold is paid by the next advance exactly if its date has come and no case is open |
| `CaseOutcomes.AdvanceOutcome` | activities/services.py:1681-1743 | where advancing leaves a settlement: paid or held by the back office it stays; with a case open it is frozen; else it has the amounts due and the stage its dates give |
| `CaseOutcomes.ReleaseOutcome` | backoffice/services.py:451-476 | the back office lifts its own dispute, and no other, exactly when every case is decided; the settlement then stands where its dates and cases put it |
| `CaseOutcomes.HoldOutcome` | backoffice/services.py:442-450 | the back office can hold every settlement not paid, and nothing but its own release moves it then |
| `CaseOutcomes.SettleOutcome` | backoffice/services.py:477-482 | settling by hand is advancing, refused exactly without a settlement or while the back office holds it |
| `CaseOutcomes.EnsureOutcome` | activities/services.py:1566-1619 | a settlement is made or brought up to date exactly once the activity is completed; dates, stage, dispute and amounts of a new one |
| `CaseOutcomes.RegisterOutcome` | activities/services.py:1221-1280 | a registration is accepted exactly if the user has something to register it for and the organizer has not been paid; it adds the case and freezes a completed activity's settlement, a back-office dispute staying |
| `CaseOutcomes.NextMovesCases` | backoffice/services.py:281-372 | exactly what every call does to every case: only a call about a case changes it, only while undecided, and only a registration adds one |
| `CaseOutcomes.DecisionsAreFinal` | backoffice/services.py:281-310 | over any run a decided case never changes, an undecided one never becomes pending again or loses its supervisor mark |
| `CaseOutcomes.DisputeEndsWithTheLastCase` | activities/services.py:1646-1677 | the call that turns down, settles or refunds a case ends the after-sales dispute exactly if no other case is open |
| `ActivityHistory.LiftedWhenClosed` | activities/services.py:1646-1677 | an after-sales dispute is lifted exactly when no case is open any more, with the amounts recalculated and the stage the clock says |
| `ActivityRuns.NeverOversold` | activities/services.py:648-747 | in every reachable state seats taken plus orders still open fit the capacity |
| `ActivityRuns.SignUpReserves` | activities/services.py:648-747 | a sign-up that is not refused leaves the user with a seat or an open order within its hold |
| `ActivityRuns.RunExtends` | activities/services.py:893-989 | over any run a paid order stays paid and no refund row is dropped or re-priced |
| `ActivityRuns.ReservationsHold` | activities/services.py:823-844 | in every reachable state the refunds of an order, in all statuses, stay within its principal, its fee and the two legs of its payment |
| `ActivityRuns.Solvent` | activities/services.py:1425-1743 | once the settlement is paid, payout plus every principal refund ever reserved is at most the principal paid |
| `ActivityRuns.SolventInCash` | activities/services.py:1425-1743 | the same in cash: payout, service fees kept and every refund ever reserved are covered by what wallet and channel paid and the publishing principal; a late order counts only for what it brought in |
| `ActivityRuns.SettledForever` | activities/services.py:1681-1687 | no later run changes a paid settlement |
| `ActivityRuns.SettledOnce` | activities/services.py:1681-1725 | a settlement found paid was paid by one call of the run, on or after its date, undisputed, with every case closed, and for the amounts calculated in that state |
| `ActivityRuns.MadeOnce` | activities/services.py:1592-1611 | the dates of a settlement are the end of the activity plus the confirmation period, and plus the risk freeze, of the one call that made it |
| `ActivityRuns.PaidAfterBothPeriods` | activities/services.py:1681-1725 | no settlement is paid before the end of the activity plus both periods of the call that made it |
| `ActivityRuns.AlwaysConserves` | activities/services.py:1425-1524 | conservation of principal and fee, and the exact parts of the payout, in every reachable state |
| `ActivityRuns.FrozenIffDisputed` | backoffice/services.py:427-482 | a settlement is frozen exactly while it has a dispute source, and exists only for a completed activity |
| `ActivityRuns.CancelledStaysCancelled` | activities/services.py:1349-1422 | after a cancellation or failure to form nobody is ever on the activity again and no order is open |
| `ActivityRuns.SeatsRefundedForever` | activities/services.py:1284-1345 | everyone who had a seat then has reserved refunds of the order's full principal and fee, in every later state |
| `ActivityRuns.FormationCounts` | activities/services.py:536-559 | recruiting means too few participants; formed before the deadline means enough |
| `ActivityRuns.OnceFullEnough` | activities/services.py:1807-1815 | only an activity that at some moment had enough participants ever starts |
| `ActivityRuns.PublishUntouched` | activities/services.py:149-239 | until an activity is rejected, cancelled or unformed nothing of its publishing payment is given back |
| `ActivityRuns.CancellationNeverBlocked` | activities/services.py:1747-1803 | a running recruitment can always be ended, by the back office, by the organizer before the start, at the deadline if unformed; the branch that rescues an unformed activity is never taken |
| `ActivityRuns.OrganizerGetsBack` | activities/services.py:1380-1395 | the publishing refund of a cancellation: everything within 12 hours of publishing, the principal until 6 hours before the start, then 70 percent of the principal |
| `ActivityRuns.OrganizerGetsAllBack` | activities/services.py:1776-1783 | a cancellation by the back office, a failure to form at the deadline and a rejection give back all of the publishing payment, each side what it paid; none of them does anything under other conditions |
| `SeatOutcomes.SweepClosesTheDue` | activities/services.py:577-597 | the sweep closes exactly the open orders whose hold is over, releases what they held, queues the compensation job and expires the participant |
| `SeatOutcomes.OrderJobClosesTheDue` | activities/services.py:600-631 | the job of one order does the same for that order alone |
| `SeatOutcomes.SignUpAcceptedIff` | activities/services.py:634-690 | a sign-up is accepted exactly from who holds a seat already, or else while the city is open and fewer people than the capacity hold one |
| `SeatOutcomes.SignUpWrites` | activities/services.py:648-747 | what an accepted sign-up writes: one order on the activity's terms and hold, in the user's own row; nothing but the sweep for a user who holds a seat |
| `SeatOutcomes.CancelOwnOutcome` | activities/services.py:1156-1217 | who may cancel, exactly, and what it leaves: waiting, the order is closed and its hold let go; seated, the refund of the rule for the time left |
| `SeatOutcomes.EveryoneLeaves` | activities/services.py:1284-1345 | at an early end everyone waiting has the order closed, everyone seated is refunded in full, all others are as they were |
| `SeatOutcomes.ApprovalPublishes` | backoffice/services.py:84-153 | an activity is published exactly if it is under review and paid for, its guards hold and its formation deadline lies ahead |
| `SeatOutcomes.GivenUpSeatPaysTheOrganizer` | activities/services.py:1485-1495 | in every later state, from the moment the refund is carried out, a seat given up by rule leaves exactly the principal the rule withheld, less what was refunded since |
| `SeatOutcomes.JobsStartAndComplete` | activities/services.py:1807-1850 | a formed activity is in progress after one call of the start job from its start on, and completed after one call of the completion job from its end on; neither job does anything else |
| `SeatOutcomes.FormedForGood` | activities/services.py:536-559 | formed at the formation deadline, an activity never goes back to recruiting and never fails to form |
| `PaymentRuns.PaidOrCompensated` | activities/huifu.py:526-668 | in every reachable state each paid order is either kept with its hold spent or given back with its hold released, never both; whoever has a seat paid for it with the newest order |
| `PaymentRuns.FirstSuccess` | activities/huifu.py:526-668 | the first success of an order seats the participant exactly if the order is open and the payment was made before it expired, and is given back otherwise; nothing else changes |
| `PaymentRuns.OpeningSplitsByBalance` | activities/huifu.py:206-226 | a payment can be opened exactly while its order is open and within its hold; it is split by the balance, and paid at once exactly if nothing is left for the channel |
| `PaymentRuns.PaidAtOnceIff` | activities/huifu.py:226-226 | a first opening pays the order at once exactly if the wallet covers all of it |
| `PaymentRuns.CompensationOutcome` | activities/huifu.py:862-933 | the job gives back a payment of a closed order that the channel reports, and changes nothing else |
| `PaymentRuns.PaymentTakesEffectOnce` | activities/huifu.py:546-551 | once paid, a repeated success or compensation changes nothing, after any run |
| `PaymentRuns.CompensationInSteps` | activities/huifu.py:862-933 | the compensation job step by step: whatever happens between finding the order closed, recording the success and making sure of the refund, the order ends given back and the last step adds nothing |
| `PaymentRuns.KeysAreUnique` | activities/services.py:912-926 | no two refunds of a participation share an idempotency key |
| `PaymentRuns.ReplayCreatesNothing` | activities/services.py:912-926 | replaying a refund request after any run finds the refund already made; another amount under the key is refused |
| `PaymentRuns.RefundsCanComplete` | activities/services.py:1006-1087 | in every reachable state a channel success for any refund on record is accepted and completes it |
| `PaymentRuns.StatusAgreesWithLedger` | activities/services.py:1048-1062 | over runs in which the channel takes back no answer: paid, partly refunded and refunded hold exactly as the succeeded refunds say, with at most one refund unfinished |
| `ContraryAnswers.OneContraryAnswer` | activities/huifu.py:1184-1196 | a concrete run from a fresh activity that keeps status and ledger in step until one failure reported after a success leaves an order partly refunded with nothing refunded and two refunds unfinished |
| `ActivityDesks.ActivityDesk.ExpirePending` | activities/services.py:577-596 | the loop over rows and orders ends with every row as the sweep specification leaves it: due open orders closed with their holds released, waiting participants expired, all else as it was |
| `ActivityDesks.ActivityDesk.SignUp` | activities/services.py:648-747 | ends in the book the sign-up specification gives; a refusal after the sweep rolls the sweep back and changes nothing |
| `ActivityDesks.ActivityDesk.CreateRefund` | activities/services.py:893-989 | writes exactly the refund row the specification gives and no other, finds the earlier one under the same key, or refuses with nothing changed |
| `ActivityDesks.ActivityDesk.ApplyPaymentSuccess` | activities/huifu.py:526-668 | ends in the book the success specification gives: seated and synchronised, or paid late with the refund made, or unchanged |
| `ActivityDesks.ActivityDesk.RunCompensation` | activities/huifu.py:862-933 | ends in the book the compensation specification gives, for every answer of the channel |
| `ActivityDesks.ActivityDesk.OpenPayment` | activities/huifu.py:206-226 | ends with the split the specification gives, paid at once exactly when the wallet covers it all; a refusal changes nothing |
| `ActivityDesks.ActivityDesk.CancelOwn` | activities/services.py:1156-1217 | ends in the book the self-cancellation specification gives, waiting or seated, or refuses for the same reason with nothing changed |
| `ActivityDesks.ActivityDesk.RefundEveryone` | activities/services.py:1284-1345 | the loop ends with every participation mass-cancelled, or with all of them as they were |
| `ActivityDesks.ActivityDesk.CancelByOrganizer` | activities/services.py:1349-1422 | participations, publishing payment and status end as the specification says, or nothing changes |
| `ActivityDesks.ActivityDesk.CancelByAdmin` | backoffice/services.py:187-227 | on a valid book it succeeds exactly if the activity is recruiting or formed with its publishing payment paid, and then ends called off with that payment refunded |
| `ActivityDesks.ActivityDesk.FailUnformed` | activities/services.py:1747-1803 | ends in the book the deadline specification gives, in each of its branches |
| `ActivityDesks.ActivityDesk.ReviewActivity` | backoffice/services.py:84-153 | ends recruiting before its formation deadline with the publishing payment untouched, or rejected with it refunded, or unchanged |
| `ActivityDesks.ActivityDesk.CalculateAmounts` | activities/services.py:1425-1524 | the nested accumulator loops compute exactly the specified amounts, of which conservation and coverage are proved |
| `ActivityDesks.ActivityDesk.EnsureSettlement` | activities/services.py:1566-1619 | ends with the settlement created, recalculated or untouched, as the specification says |
| `ActivityDesks.ActivityDesk.ReleaseAfterSales` | activities/services.py:1646-1677 | ends with the dispute lifted and the amounts recalculated exactly when the specification says so |
| `ActivityDesks.ActivityDesk.AdvanceSettlement` | activities/services.py:1681-1743 | ends in the stage, with the dispute and the amounts, the specification gives |
| `ActivityDesks.ActivityDesk.ReleaseDispute` | backoffice/services.py:451-476 | lifts a dispute of the back office and ends where advancing from there leads, so an open case freezes it again |
| `ActivityDesks.ActivityDesk.FreezeDispute` | backoffice/services.py:442-450 | succeeds exactly if there is a settlement that is not paid, and leaves it held by the back office |
| `ActivityDesks.ActivityDesk.Settle` | backoffice/services.py:477-482 | a successful call leaves the settlement paid exactly if it was, or if its date has come and no case is open |
| `ActivityDesks.ActivityDesk.StartFormed` | activities/services.py:1807-1815 | the activity is in progress afterwards exactly if it was, or if it was formed and its start has come |
| `ActivityDesks.ActivityDesk.CompleteStarted` | activities/services.py:1831-1838 | the activity is completed afterwards exactly if it was, or if it was in progress and its end has come |
| `ActivityDesks.ActivityDesk.ApproveAfterSales` | backoffice/services.py:264-399 | ends in the book the approval specification gives: refund, case, seat, formation and settlement |
| `ActivityDesks.ActivityDesk.CompleteRefund` | activities/services.py:1006-1062 | ends with the refund booked and the order recounted as specified, or refuses with nothing changed |
| `ActivityDesks.ActivityDesk.Serve` | activities/services.py:518-1850 | any call leads the tables to the state the specification says and keeps the invariant |
| `PublishPayments.OnePaymentKept` | activities/huifu.py:427-521 | an activity that left the draft stage has exactly one publishing payment that was kept, the newest; every other one that arrived was given back in full |
| `PublishPayments.ReviewedForGood` | activities/huifu.py:467-489 | no payment, however late, sends a reviewed activity back for review |
| `PublishPayments.LateOk` | activities/huifu.py:494-521 | a late publishing payment is never refused its refund |
| `PublishPayments.SuccessOutcome` | activities/huifu.py:427-521 | a publishing payment made while its order was open and before it expired is kept and submits the activity; any other is given back in full |
| `PublishPayments.CheckoutOutcome` | activities/services.py:369-433 | checking out keeps an open order, or makes one on the activity's terms after letting the old one lapse; only a closed city refuses |
| `PublishPayments.OpenOutcome` | activities/huifu.py:206-226 | the newest publishing order can be opened exactly while open, is split by the balance, and paid at once exactly if nothing is left for the channel |
| `PublishPayments.JobsOutcome` | activities/services.py:436-460 | lapsing closes an open order past its time and nothing else; the job after it gives back a payment that arrived after all and nothing else |
| `PublishPayments.ReviewOutcome` | backoffice/services.py:99-106 | an activity can be reviewed exactly once it has been submitted |
| `RefundSubmissions.OneIdentity` | activities/huifu.py:1237-1262 | one refund is only ever sent under one date, one number and for its external leg, whatever workers do and wherever they stop |
| `RefundSubmissions.SendersBeganBefore` | activities/huifu.py:1243-1249 | whoever sends began while no answer was on record: a worker that begins after an answer never sends |
| `RefundSubmissions.SendsIffNoAnswer` | activities/huifu.py:1249-1262 | a worker that has begun goes on to send, whatever the others do meanwhile, exactly if no answer was on record when it began |
| `RefundSubmissions.NothingSentAfterAnswer` | activities/huifu.py:1204-1284 | when workers and notifications take turns, crashes included, nothing is sent again after an answer was recorded |
| `RefundSubmissions.OverlapSendsAgain` | activities/huifu.py:1204-1284 | a concrete run of two overlapping workers in which a refund is sent after an answer |
| `RefundSubmissions.AnswersAreRecorded` | activities/huifu.py:1151-1202 | every answer of the channel is put on record and nothing else is; the refund is done from the first that says so |
| `PaymentSessions.CreatedAtMostOnce` | activities/huifu.py:206-319 | the channel is asked at most once to collect a payment, for the external leg only, and never when the wallet paid it all |
| `PaymentSessions.SplitIsFixed` | wallets/services.py:144-163 | the split of an order never changes once it is made |
| `PaymentSessions.FirstDecision` | activities/huifu.py:206-290 | the first opening is paid by the wallet if that covers everything, and otherwise marks the request as sent before the channel is asked for the rest |
| `PaymentSessions.LaterDecision` | activities/huifu.py:232-271 | once the request is marked nobody asks again: replay of a stored answer, in progress for 30 seconds, refusal of another scene, or recovery by query |
| `PaymentSessions.AnswerOutcome` | activities/huifu.py:346-378 | the channel's answer makes the payment ready exactly if it can be invoked, and touches neither order nor split |
| `RefundAuthority.DailyUsage` | backoffice/refund_authorization.py:32-42 | one query per order family adds up to the operator's refunds of the day |
| `RefundAuthorityRuns.LocalMidnight` | backoffice/refund_authorization.py:32-36 | the day of a refund changes at midnight in UTC+8 and nowhere else |
| `RefundAuthorityRuns.AuthorisedIff` | backoffice/refund_authorization.py:78-110 | an approval is authorised exactly for a supervisor or within both limits on a case not passed on, with its rows free; otherwise the case is passed on and nothing else changes |
| `RefundAuthorityRuns.RecordCounts` | backoffice/refund_authorization.py:32-42 | recording an approval adds its amount to its operator's day and to its order, and to no other |
| `RefundAuthorityRuns.DailyLimitHolds` | backoffice/refund_authorization.py:78-110 | an operator with ordinary approvals only stays within the daily limit on every day, even across midnight |
| `RefundAuthorityRuns.OrderLimitHolds` | backoffice/refund_authorization.py:86-96 | an ordinary approval leaves its order within the limit per order and is never given for a case passed on |
| `RefundAuthorityRuns.EscalatedForGood` | backoffice/refund_authorization.py:59-75 | a case passed on is never refunded by an ordinary approval |
| `RefundAuthority.Authority.AuthorizeApproval` | backoffice/refund_authorization.py:78-110 | authorises exactly a supervisor, or an amount within the limit of the order and of the operator's day on a case not passed on; otherwise the case is passed on and nothing else changes |
| `ManualRefunds.FourEyes` | backoffice/manual_refunds.py:70-89 | a completed case was reviewed by neither its creator nor anyone who ever submitted evidence on it; receipts are unique; a rejected case has none |
| `ManualRefunds.NeverOverRefunded` | backoffice/manual_refunds.py:37-61 | cases not rejected plus automatic refunds never exceed what was paid |
| `ManualRefunds.ReceiptsNeverChange` | backoffice/manual_refunds.py:225-246 | from any point on, a receipt never changes, evidence is never forgotten and a closed case never changes |
| `ManualRefunds.StaleActionRefused` | backoffice/manual_refunds.py:216-219 | of two actions on one revision only the first succeeds |
| `ManualRefunds.CreateOutcome` | backoffice/manual_refunds.py:154-180 | which requests are accepted: one made before with the same terms, which changes nothing, and a new one of a ready order with no open case that is owed that much still |
| `ManualRefunds.ActOutcome` | backoffice/manual_refunds.py:70-89 | who may take which action on a case and when, exactly, and what each action puts on record |
| `ManualRefunds.OrderOutcome` | backoffice/manual_refunds.py:22-27 | an order with a manual refund that was not rejected gets no automatic one, and none ever exceeds what was paid |
| `ManualRefunds.Desk.CreateCase` | backoffice/manual_refunds.py:154-180 | adds exactly the specified case, finds the one made under the same key, or refuses with nothing changed |
| `ManualRefunds.Desk.ActOn` | backoffice/manual_refunds.py:201-247 | changes exactly the specified fields of one case and the evidence log, or refuses with nothing changed |
| `AccountClosures.OneOpenRequest` | accounts/account_closure.py:49-106 | closure pending holds exactly while there is one open request, and never more |
| `AccountClosures.WindowsDisjoint` | accounts/account_closure.py:28-46 | a request can be withdrawn only before its date and handled only from that date on |
| `AccountClosures.BlockedOnlyCloses` | accounts/account_closure.py:78-106 | a blocked request can only end in a closed account |
| `AccountClosures.ClosedForever` | backoffice/services.py:1024-1050 | a closed account stays closed under every call |
| `AccountClosures.OldTokensDie` | config/authentication.py:12-18 | no token minted before a closure request is ever accepted again, even after a withdrawal |
| `AccountClosures.RequestOutcome` | accounts/account_closure.py:49-74 | who may ask for a closure, exactly, and what it leaves: one dated request, the account locked, the sessions ended |
| `AccountClosures.LoginOutcome` | accounts/account_closure.py:28-46 | who may log in, exactly: an active account, or one within its waiting period, whose closure is then withdrawn |
| `AccountClosures.ProcessOutcome` | accounts/account_closure.py:78-106 | a due closure is held up while business is open and carried out otherwise; what each writes |
| `AccountClosures.StaffOutcome` | backoffice/services.py:1024-1050 | the transitions staff may make, exactly, the status each sets, and that each ends the sessions |
| `AccountClosures.AccountService.RequestClosureOf` | accounts/account_closure.py:49-74 | on success the account is closure pending with one new request whose date is the deadline of the work calendars; a refusal changes nothing, and one for want of a calendar means that the calendars give no deadline |
| `AccountClosures.AccountService.WithdrawClosure` | accounts/account_closure.py:28-46 | ends active with the request withdrawn and the sessions revoked, or refuses with nothing changed |
| `AccountClosures.AccountService.ProcessClosure` | accounts/account_closure.py:78-106 | skips, holds up or closes exactly as the specification says |
| `AccountClosures.AccountService.ChangeAccountStatus` | backoffice/services.py:1024-1050 | moves the account as the specification says and revokes its sessions, or refuses with nothing changed |
| `BusinessDays.ClosureDay` | accounts/business_days.py:32-57 | the loop finds the day the count stops on and why; it ends by the distance to a year with no calendar |
| `BusinessDays.OneOutcome` | accounts/business_days.py:32-57 | a request has one outcome: the fifth working day, or the first day without a usable calendar if that comes first |
| `BusinessDays.LeastDay` | accounts/business_days.py:53-56 | the deadline is the least day with five working days after the request, and is one |
| `BusinessDays.DayMonotone` | accounts/business_days.py:36-57 | a later request never gets an earlier day, and a later one exactly when a working day lies between |
| `BusinessDays.MomentMonotoneIff` | accounts/business_days.py:36-57 | as a moment, the deadline grows with the request exactly when a working day lies between or the later request was no earlier in the day |
| `BusinessDays.AcrossTheFestivalIn2026` | accounts/business_days.py:14-57 | with the delivered calendar holidays do not count and working weekends do: a request of Friday 13 February 2026 may be carried out on Friday 27 February, at the same time of day |
| `BusinessDays.SundayBeatsSaturday` | accounts/business_days.py:36-57 | whenever an ordinary week follows a Saturday, a request on that Saturday gets a later deadline than one made earlier in the day on the Sunday |
| `BusinessDays.SundayBeatsSaturdayIn2026` | accounts/business_days.py:14-30 | with the delivered calendar of 2026: Saturday 7 March 23:00 gets 13 March 23:00, Sunday 8 March 01:00 gets 13 March 01:00 |
| `ClosureQueue.Scheduler.ProcessDue` | accounts/tasks.py:15-30 | the loop leaves each request of the batch handled once by its outcome, and every other request as it was |
| `ClosureQueue.RoundServesExactly` | accounts/tasks.py:15-30 | of the waiting requests exactly those in the batch whose row is not locked stop waiting |
| `ClosureQueue.RoundHandles` | accounts/tasks.py:15-30 | a round closes exactly the requests it finishes, dates the ones it looks at and leaves the rest of the queue as it was |
| `ClosureQueue.EveryoneIsCheckedIff` | accounts/tasks.py:15-30 | whatever is locked and when, everyone has been looked at exactly if each waiting request came up in some round in which it was not locked |
| `ClosureQueue.RoundServesMost` | accounts/tasks.py:17-19 | a round that finds at most k rows locked looks at 200 - k waiting requests at least while more than 200 wait, and at all but k after that |
| `ClosureQueue.OthersAreChecked` | accounts/tasks.py:17-19 | with k < 200 rows locked for good, everyone else is looked at within ceil(n / (200 - k)) rounds |
| `ClosureQueue.EveryoneIsChecked` | accounts/tasks.py:17-19 | after ceil(n/200) rounds without contention every one of n due requests has been looked at |
| `ClosureQueue.LockedRowsStarve` | accounts/account_closure.py:81-83 | with 200 rows locked, a concrete queue whose only other request is never looked at, however many rounds are run |
| `ClosureQueue.LockedBatchRepeats` | accounts/account_closure.py:81-83 | a full batch of locked rows changes nothing and comes up again |

## Left out

- Rows are values in the tables of a desk object: a service fetches a row, changes it and saves it back. Aliasing between two fetched copies of one row is not captured.
- `ActivityDesks.ActivityDesk.RunCompensation`: one step here, two transactions and a query in the code; `PaymentRuns.CompensationInSteps` shows that with anything in between the outcome is the same.
- `RefundSubmissions.NothingSentAfterAnswer`: needs workers and notifications that take turns, because the statement is false for overlapping ones (`RefundSubmissions.OverlapSendsAgain`).
- `PaymentRuns.StatusAgreesWithLedger`: assumes a channel that takes back no answer, because the statement is false otherwise (`OrderMoves.StatusCanPart`).
- `ClosureQueue.EveryoneIsChecked`: assumes no locked rows; `ClosureQueue.OthersAreChecked` and `ClosureQueue.EveryoneIsCheckedIff` say what holds with them.
- `ActivityDesks.ActivityDesk.OpenPayment`: the stored payment row with its replay, in-progress and recovery branches is modelled in `PaymentSessions`, not here.
- Whether a channel payment exists for an order: the compensation job is taken to be queued at every close, and a success may be reported for any order, which allows more runs than the code does.
- Completion of publishing refunds, and refunds of the publishing payment after the review in `PublishPayments`; both appear only as the one refund record of the book.
- Closing a payment at the channel and querying that close: they change no order.
- The mock gateway of the debug mode (`simulate_*`) and the non-channel refund branch it uses.
- Channel requests, signatures, digests, notification parsing and the merchant and amount checks on the answers: an answer here has passed them.
- Wallet balances, lots and ledger entries beyond the split of one payment.
- Provider orders: only their refunds count towards the daily limit, and their manual cases are registered.
- Permissions and data scopes, except the authority to approve and the finance and supervisor rights of the manual register.
- Notifications, the scheduling of jobs, audit rows other than the evidence log, labels and notes.
- What blocks an account closure: an input of the calls here.
- Activity reports, drafts, moderation, views, serializers and operator queues: they would add members without harder properties.
