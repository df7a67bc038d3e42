/** Optional values, and the outcome of a service call that may raise. */
module Wrappers {

  datatype Option<+T> = None | Some(value: T)

  // Why a call is refused. A refused call is rolled back: it changes nothing.
  datatype Refusal =
    | SignUpClosed
    | CityClosed
    | SeatsFull
    | NoSuchRecord
    | PaymentMissing
    | PaymentExpired
    | StatusForbids
    | AfterSalesOpen
    | AlreadyStarted
    | AlreadySettled
    | AmountInvalid
    | AmountExceedsRefundable
    | NothingRefundable
    | RefundUnfinished
    | IdempotencyConflict
    | WalletConflict
    | PermissionDenied
    | RevisionStale
    | OrderNotReady
    | EvidenceIncomplete
    | TimeImpossible
    | ReceiptLocked
    | ReceiptUsed
    | DistributionUnverified
    | ManualRefundExists
    | BusinessOpen
    | RequestOpen
    | CalendarMissing
    | WaitingPeriodOver

  datatype Result<+T> = Ok(value: T) | Refused(reason: Refusal) {
    predicate IsFailure() {
      Refused?
    }

    function PropagateFailure<U>(): Result<U>
      requires Refused?
    {
      Refused(reason)
    }

    function Extract(): T
      requires Ok?
    {
      value
    }
  }
}
