/** Vocabulary shared by every module: identifiers, time, results and errors. */
module Common {
  // Identifiers are naturals; NO_ID stands for the blank string the program rejects or uses for "unset".
  type CompanyId = nat
  type AuctionId = nat
  type DealId = nat
  type PaymentId = nat
  type ConfirmationId = nat
  type UserId = nat
  type LotId = nat

  const NO_ID: nat := 0

  // Instants, in seconds; ZERO_TIME is the unset instant.
  type Time = int
  const ZERO_TIME: Time := 0
  const MINUTE: Time := 60
  const HOUR: Time := 60 * MINUTE

  datatype Option<+T> = None | Some(value: T)

  predicate Distinct(s: seq<CompanyId>) {
    forall i, j :: 0 <= i < j < |s| ==> s[i] != s[j]
  }

  // The outcome of an operation that runs inside a transaction: a new state, or an error that rolls it back.
  datatype Result<+T> = Ok(value: T) | Err(error: Error) {
    predicate IsFailure() { Err? }

    function PropagateFailure<U>(): Result<U>
      requires Err?
    {
      Err(error)
    }

    function Extract(): T
      requires Ok?
    {
      value
    }

    // The error a method reports: None is the program's nil.
    function Failure(): Option<Error> {
      if Ok? then None else Some(error)
    }
  }

  datatype Error =
    // wallet
    | ErrInvalidIdentifier
    | ErrInvalidAmount
    | ErrInsufficientFunds
    | ErrInsufficientHeld
    | ErrInvalidTopUpStatus
    | ErrInvalidDealInvoice
    | ErrInvoiceNotPayable
    | ErrInvoiceNotExpirable
    | ErrInvoiceAmountMismatch
    | ErrInvalidSellerPayout
    | ErrSellerPayoutWrongStatus
    // billing use cases
    | ErrAccountNotFound
    | ErrDepositNotFound
    | ErrDepositNotHeld
    | ErrInsufficientFundsForDeposit
    | ErrPlatformFeeDueMismatch
    | ErrTopUpNotFound
    | ErrTopUpAmountMismatch
    | ErrDealInvoiceNotFound
    | ErrInvoiceNotExpired
    | ErrSellerPayoutNotFound
    | ErrSellerPayoutInvoiceMismatch
    | ErrPaymentProvider
    | ErrNilDereference // a nil value was dereferenced: the program would crash here
    // event handlers
    | ErrEmptyWinners
    | ErrCatalogSync
    // deals
    | ErrDealIDRequired
    | ErrAuctionIDRequired
    | ErrCustomerIDRequired
    | ErrSupplierIDRequired
    | ErrWinnerCompanyRequired
    | ErrWinnerCandidatesRequired
    | ErrFinalPriceRequired
    | ErrPriceMustBePositive
    | ErrQuantityPositive
    | ErrUnitPricePositive
    | ErrStartPriceMustBePositive
    | ErrPublishedAtRequired
    | ErrWonAtRequired
    | ErrCreatedAtRequired
    | ErrProductNameRequired
    | ErrReasonRequired
    | ErrCancelledByRequired
    | ErrSignedByRequired
    | ErrSignatureRefRequired
    | ErrProjectionNotFound
    | ErrSelectionNotFound
    | ErrDealNotFound
    | ErrNoAvailableWinner
    | ErrNoAvailableWinnerCandidate
    | ErrStaleWinnerSelection
    | ErrWinnerSelectionDealMismatch
    | ErrWinnerSelectionNotActive
    | ErrWinnerSelectionNotAwaitingPayment
    | ErrWinnerSelectionMissingForAuctionDeal
    | ErrWinnerFallbackOnlyWhileActive
    | ErrWrongSelectedCandidate
    | ErrDealNotCancelledForFallback
    | ErrCannotConfirmDeal
    | ErrCannotPrepareContract
    | ErrContractAlreadyPrepared
    | ErrContractNumberRequired
    | ErrCannotSignContract
    | ErrContractNotPrepared
    | ErrContractAlreadySigned
    | ErrContractNotSigned
    | ErrCannotRequestPayment
    | ErrPaymentAlreadyRequested
    | ErrCannotMarkAsPaid
    | ErrCannotRequestShipment
    | ErrCannotMarkAsShipped
    | ErrCannotCompleteDeal
    | ErrCannotCancelDeal
    | ErrCannotCancelForPaymentTimeout
    | ErrCannotDeclineWinnerAfterConfirm
    | ErrWinnerForfeitOnlyAuction
    | ErrPaidOnlyThroughBilling
    | ErrDealCancelledPayment
    | ErrNotDealParticipant
    | ErrDealInvoicePaidInvariant
    | ErrInvalidStageTransition
    | ErrConfirmationIDRequired
    | ErrConfirmationDealIDRequired
    | ErrRequestedByCompanyRequired
    | ErrCounterpartyCompanyRequired
    | ErrConfirmationNotFound
    | ErrConfirmationDealMismatch
    | ErrConfirmationNotPending
    | ErrConfirmationNotApproved
    | ErrConfirmationExpired
    | ErrConfirmationAlreadyPending
    | ErrCounterpartyRequired
    | ErrRequestedByUserRequired
    // trading
    | ErrNotFound
    | ErrAuctionIDEmpty
    | ErrLotIDEmpty
    | ErrInvalidSchedule
    | ErrInvalidStartPrice
    | ErrInvalidMinBidStep
    | ErrBidderCompanyIDEmpty
    | ErrBidAmountNonPositive
    | ErrBidPlacedAtZero
    | ErrAuctionCannotBePublished
    | ErrAuctionNotActive
    | ErrAuctionNotStarted
    | ErrAuctionAlreadyEnded
    | ErrBidStepTooSmall
    | ErrCannotCloseAuction
    | ErrCannotCancelWithBids
    | ErrInvalidStateTransition
    | ErrCloseForbiddenBeforeEndWithBids
}
