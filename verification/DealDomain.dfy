/** The deal aggregate: ten statuses, the four ways to cancel, and the confirmation requests that drive it. */
module DealDomain {
  import opened Common

  datatype DealStatus =
    | Pending
    | Confirmed
    | ContractPrepared
    | ContractSigned
    | PaymentRequested
    | Paid
    | ShipmentRequested
    | Shipped
    | Completed
    | Cancelled

  datatype DealKind = DirectDeal | AuctionDeal

  // What the program tells apart in the free-text reason of a cancellation.
  datatype CancelReason =
    | NoReason
    | WinnerRejectedReason
    | ConfirmationTimeout
    | LegacyDeadlineExceeded
    | PaymentTimeout
    | BuyerInitiatedCancel
    | OtherReason(text: nat)

  predicate ForfeitsWinnerDeposit(reason: CancelReason) {
    reason in {WinnerRejectedReason, ConfirmationTimeout, LegacyDeadlineExceeded}
  }

  function NormalizeForfeitReason(reason: CancelReason): CancelReason {
    if reason == LegacyDeadlineExceeded then ConfirmationTimeout else reason
  }

  // Who asks for a cancellation.
  datatype Actor = System | Party(company: CompanyId)

  datatype DealEvent =
    | DealCreated(deal: DealId, auction: AuctionId, customer: CompanyId, price: int)
    | DealConfirmed(deal: DealId)
    | WinnerConfirmed(deal: DealId, auction: AuctionId, company: CompanyId, price: int)
    | ContractPreparedEvent(deal: DealId)
    | ContractSignedEvent(deal: DealId)
    | PaymentRequestedEvent(deal: DealId, auction: AuctionId, buyer: CompanyId, seller: CompanyId, goods: int, dueAt: Time)
    | DealPaid(deal: DealId)
    | ShipmentRequestedEvent(deal: DealId)
    | DealShipped(deal: DealId)
    | DealCompleted(deal: DealId)
    | DealCancelled(deal: DealId, reason: CancelReason)
    | WinnerRejected(deal: DealId, auction: AuctionId, company: CompanyId, reason: CancelReason)
    | NextWinnerSelected(auction: AuctionId, company: CompanyId, rank: nat, deal: DealId)
    | WinnerSelectionFailed(auction: AuctionId)
    | WinnerSelectionFinalized(deal: DealId, auction: AuctionId, company: CompanyId, finalPrice: int, goods: int, feeDue: int)
    | ConfirmationRequested(confirmation: ConfirmationId, deal: DealId)
    | ConfirmationApproved(confirmation: ConfirmationId, deal: DealId)
    | ConfirmationRejected(confirmation: ConfirmationId, deal: DealId)

  // ---------- deal ----------

  datatype Contract = NoContract | Contract(number: nat, preparedAt: Time, signedAt: Option<Time>)

  datatype Change = Change(row: DealRow, events: seq<DealEvent>)

  predicate PrePaid(s: DealStatus) {
    s in {Pending, Confirmed, ContractPrepared, ContractSigned, PaymentRequested}
  }

  predicate PostConfirmPrePaid(s: DealStatus) {
    s in {Confirmed, ContractPrepared, ContractSigned, PaymentRequested}
  }

  datatype DealRow = DealRow(
    id: DealId,
    customer: CompanyId,
    supplier: CompanyId,
    auction: AuctionId,
    quantity: int,
    unitPrice: int,
    kind: DealKind,
    productNamed: bool,
    createdAt: Time,
    status: DealStatus,
    confirmedAt: Option<Time>,
    contract: Contract
  ) {
    function Total(): int { quantity * unitPrice }

    predicate IsParticipant(company: CompanyId) {
      company != NO_ID && (company == customer || company == supplier)
    }

    function Validate(): Option<Error> {
      if id == NO_ID then Some(ErrDealIDRequired)
      else if customer == NO_ID then Some(ErrCustomerIDRequired)
      else if supplier == NO_ID then Some(ErrSupplierIDRequired)
      else if auction == NO_ID && kind == AuctionDeal then Some(ErrAuctionIDRequired)
      else if quantity <= 0 then Some(ErrQuantityPositive)
      else if unitPrice <= 0 then Some(ErrUnitPricePositive)
      else if !productNamed then Some(ErrProductNameRequired)
      else if createdAt == ZERO_TIME then Some(ErrCreatedAtRequired)
      else None
    }

    function Confirm(now: Time): Result<Change> {
      if status != Pending then Err(ErrCannotConfirmDeal)
      else Ok(Change(this.(status := Confirmed, confirmedAt := Some(now)), [DealConfirmed(id)]))
    }

    // A pending deal may be given a contract without ever being confirmed.
    function PrepareContract(number: nat, now: Time): Result<Change> {
      if status != Confirmed && status != Pending then Err(ErrCannotPrepareContract)
      else if contract.Contract? then Err(ErrContractAlreadyPrepared)
      else if number == NO_ID then Err(ErrContractNumberRequired)
      else Ok(Change(this.(status := ContractPrepared, contract := Contract(number, now, None)), [ContractPreparedEvent(id)]))
    }

    function SignContract(now: Time): Result<Change> {
      if status != ContractPrepared then Err(ErrCannotSignContract)
      else if contract.NoContract? then Err(ErrContractNotPrepared)
      else if contract.signedAt.Some? then Err(ErrContractAlreadySigned)
      else Ok(Change(this.(status := ContractSigned, contract := contract.(signedAt := Some(now))), [ContractSignedEvent(id)]))
    }

    predicate HasSignedContract() {
      contract.Contract? && contract.signedAt.Some?
    }

    function RequestPayment(dueAt: Time): Result<Change> {
      if status == PaymentRequested then Err(ErrPaymentAlreadyRequested)
      else if status != ContractSigned then Err(ErrCannotRequestPayment)
      else if !HasSignedContract() then Err(ErrContractNotSigned)
      else Ok(Change(this.(status := PaymentRequested), [PaymentRequestedEvent(id, auction, customer, supplier, Total(), dueAt)]))
    }

    function MarkAsPaid(): Result<Change> {
      if status != PaymentRequested then Err(ErrCannotMarkAsPaid)
      else Ok(Change(this.(status := Paid), [DealPaid(id)]))
    }

    function RequestShipment(): Result<Change> {
      if status != Paid then Err(ErrCannotRequestShipment)
      else Ok(Change(this.(status := ShipmentRequested), [ShipmentRequestedEvent(id)]))
    }

    function MarkAsShipped(): Result<Change> {
      if status != ShipmentRequested then Err(ErrCannotMarkAsShipped)
      else Ok(Change(this.(status := Shipped), [DealShipped(id)]))
    }

    function Complete(): Result<Change> {
      if status != Shipped then Err(ErrCannotCompleteDeal)
      else Ok(Change(this.(status := Completed), [DealCompleted(id)]))
    }

    function Cancel(reason: CancelReason, actor: Actor): Result<Change> {
      var row := this.(status := Cancelled);
      if status == Completed || status == Cancelled then Err(ErrCannotCancelDeal)
      else if ForfeitsWinnerDeposit(reason) then
        if kind != AuctionDeal then Err(ErrWinnerForfeitOnlyAuction)
        else if status != Pending then Err(ErrCannotDeclineWinnerAfterConfirm)
        else if auction == NO_ID then Err(ErrAuctionIDRequired)
        else Ok(Change(row, [DealCancelled(id, reason), WinnerRejected(id, auction, customer, NormalizeForfeitReason(reason))]))
      else if reason == PaymentTimeout then
        if kind != AuctionDeal then Err(ErrWinnerForfeitOnlyAuction)
        else if auction == NO_ID then Err(ErrAuctionIDRequired)
        else if !PostConfirmPrePaid(status) then Err(ErrCannotCancelForPaymentTimeout)
        else Ok(Change(row, [DealCancelled(id, reason), WinnerRejected(id, auction, customer, PaymentTimeout)]))
      else if kind == AuctionDeal && auction != NO_ID && actor == Party(customer) && PrePaid(status) then
        Ok(Change(row, [DealCancelled(id, reason), WinnerRejected(id, auction, customer, BuyerInitiatedCancel)]))
      else
        Ok(Change(row, [DealCancelled(id, reason)]))
    }

    predicate CanRequestStage(stage: Stage) {
      match stage
      case StageConfirmed => status == Pending
      case StagePaid => false
      case StageShipped => status == ShipmentRequested
      case StageCompleted => status == Shipped
      case StageCancelled => status != Completed && status != Cancelled
    }

    function Counterparty(company: CompanyId): Result<CompanyId> {
      if company == customer then Ok(supplier)
      else if company == supplier then Ok(customer)
      else Err(ErrNotDealParticipant)
    }

    function RequestConfirmation(confirmation: ConfirmationId, stage: Stage, company: CompanyId, user: UserId,
                                 comment: CancelReason, expiresAt: Option<Time>): Result<ConfirmationRow>
    {
      if !IsParticipant(company) then Err(ErrNotDealParticipant)
      else
        var counterparty :- Counterparty(company);
        if !CanRequestStage(stage) then Err(ErrInvalidStageTransition)
        else NewDealConfirmation(confirmation, id, stage, user, company, counterparty, comment, expiresAt)
    }

    function ApplyApprovedConfirmation(c: ConfirmationRow, now: Time): Result<Change> {
      if c.deal != id then Err(ErrConfirmationDealMismatch)
      else if c.status != Approved then Err(ErrConfirmationNotApproved)
      else if !CanRequestStage(c.stage) then Err(ErrInvalidStageTransition)
      else match c.stage {
        case StageConfirmed => Confirm(now)
        case StagePaid => Err(ErrPaidOnlyThroughBilling)
        case StageShipped => MarkAsShipped()
        case StageCompleted => Complete()
        case StageCancelled =>
          Cancel(if c.comment == NoReason then DEFAULT_CANCEL_REASON else c.comment, Party(c.requestedBy))
      }
    }
  }

  // "cancelled by approved confirmation"
  const DEFAULT_CANCEL_REASON := OtherReason(0)

  function CreateFromSelection(id: DealId, auction: AuctionId, supplier: CompanyId, productNamed: bool,
                               winner: CompanyId, finalPrice: int, wonAt: Time): Result<Change>
  {
    if auction == NO_ID then Err(ErrAuctionIDRequired)
    else if supplier == NO_ID then Err(ErrSupplierIDRequired)
    else if winner == NO_ID then Err(ErrWinnerCompanyRequired)
    else if finalPrice <= 0 then Err(ErrPriceMustBePositive)
    else if wonAt == ZERO_TIME then Err(ErrCreatedAtRequired)
    else
      Ok(Change(DealRow(id, winner, supplier, auction, 1, finalPrice, AuctionDeal, productNamed, wonAt, Pending, None, NoContract),
                [DealCreated(id, auction, winner, finalPrice)]))
  }

  // What every lifecycle method promises: it does what the row function says, and an error changes nothing.
  predicate Did(r: Result<Change>, before: DealRow, after: DealRow, err: Option<Error>, events: seq<DealEvent>) {
    && err == r.Failure()
    && events == (if r.Ok? then r.value.events else [])
    && after == (if r.Ok? then r.value.row else before)
  }

  class Deal {
    const base: DealRow // identity, parties and price; the fields below supersede the rest
    var status: DealStatus
    var confirmedAt: Option<Time>
    var contract: Contract

    constructor (row: DealRow)
      ensures Value() == row
    {
      base, status, confirmedAt, contract := row, row.status, row.confirmedAt, row.contract;
    }

    function Value(): DealRow
      reads this
    {
      base.(status := status, confirmedAt := confirmedAt, contract := contract)
    }

    method Confirm(now: Time) returns (err: Option<Error>, events: seq<DealEvent>)
      modifies this
      ensures Did(old(Value()).Confirm(now), old(Value()), Value(), err, events)
    {
      if status != Pending { return Some(ErrCannotConfirmDeal), []; }
      status := Confirmed;
      confirmedAt := Some(now);
      return None, [DealConfirmed(base.id)];
    }

    method PrepareContract(number: nat, now: Time) returns (err: Option<Error>, events: seq<DealEvent>)
      modifies this
      ensures Did(old(Value()).PrepareContract(number, now), old(Value()), Value(), err, events)
    {
      if status != Confirmed && status != Pending { return Some(ErrCannotPrepareContract), []; }
      if contract.Contract? { return Some(ErrContractAlreadyPrepared), []; }
      if number == NO_ID { return Some(ErrContractNumberRequired), []; }
      contract := Contract(number, now, None);
      status := ContractPrepared;
      return None, [ContractPreparedEvent(base.id)];
    }

    method SignContract(now: Time) returns (err: Option<Error>, events: seq<DealEvent>)
      modifies this
      ensures Did(old(Value()).SignContract(now), old(Value()), Value(), err, events)
    {
      if status != ContractPrepared { return Some(ErrCannotSignContract), []; }
      if contract.NoContract? { return Some(ErrContractNotPrepared), []; }
      if contract.signedAt.Some? { return Some(ErrContractAlreadySigned), []; }
      contract := contract.(signedAt := Some(now));
      status := ContractSigned;
      return None, [ContractSignedEvent(base.id)];
    }

    method RequestPayment(dueAt: Time) returns (err: Option<Error>, events: seq<DealEvent>)
      modifies this
      ensures Did(old(Value()).RequestPayment(dueAt), old(Value()), Value(), err, events)
    {
      if status == PaymentRequested { return Some(ErrPaymentAlreadyRequested), []; }
      if status != ContractSigned { return Some(ErrCannotRequestPayment), []; }
      if !Value().HasSignedContract() { return Some(ErrContractNotSigned), []; }
      status := PaymentRequested;
      return None, [PaymentRequestedEvent(base.id, base.auction, base.customer, base.supplier, base.Total(), dueAt)];
    }

    method MarkAsPaid() returns (err: Option<Error>, events: seq<DealEvent>)
      modifies this
      ensures Did(old(Value()).MarkAsPaid(), old(Value()), Value(), err, events)
    {
      if status != PaymentRequested { return Some(ErrCannotMarkAsPaid), []; }
      status := Paid;
      return None, [DealPaid(base.id)];
    }

    method RequestShipment() returns (err: Option<Error>, events: seq<DealEvent>)
      modifies this
      ensures Did(old(Value()).RequestShipment(), old(Value()), Value(), err, events)
    {
      if status != Paid { return Some(ErrCannotRequestShipment), []; }
      status := ShipmentRequested;
      return None, [ShipmentRequestedEvent(base.id)];
    }

    method MarkAsShipped() returns (err: Option<Error>, events: seq<DealEvent>)
      modifies this
      ensures Did(old(Value()).MarkAsShipped(), old(Value()), Value(), err, events)
    {
      if status != ShipmentRequested { return Some(ErrCannotMarkAsShipped), []; }
      status := Shipped;
      return None, [DealShipped(base.id)];
    }

    method Complete() returns (err: Option<Error>, events: seq<DealEvent>)
      modifies this
      ensures Did(old(Value()).Complete(), old(Value()), Value(), err, events)
    {
      if status != Shipped { return Some(ErrCannotCompleteDeal), []; }
      status := Completed;
      return None, [DealCompleted(base.id)];
    }

    method Cancel(reason: CancelReason, actor: Actor) returns (err: Option<Error>, events: seq<DealEvent>)
      modifies this
      ensures Did(old(Value()).Cancel(reason, actor), old(Value()), Value(), err, events)
    {
      if status == Completed || status == Cancelled { return Some(ErrCannotCancelDeal), []; }
      var cancelled := DealCancelled(base.id, reason);
      if ForfeitsWinnerDeposit(reason) {
        if base.kind != AuctionDeal { return Some(ErrWinnerForfeitOnlyAuction), []; }
        if status != Pending { return Some(ErrCannotDeclineWinnerAfterConfirm), []; }
        if base.auction == NO_ID { return Some(ErrAuctionIDRequired), []; }
        status := Cancelled;
        return None, [cancelled, WinnerRejected(base.id, base.auction, base.customer, NormalizeForfeitReason(reason))];
      }
      if reason == PaymentTimeout {
        if base.kind != AuctionDeal { return Some(ErrWinnerForfeitOnlyAuction), []; }
        if base.auction == NO_ID { return Some(ErrAuctionIDRequired), []; }
        if !PostConfirmPrePaid(status) { return Some(ErrCannotCancelForPaymentTimeout), []; }
        status := Cancelled;
        return None, [cancelled, WinnerRejected(base.id, base.auction, base.customer, PaymentTimeout)];
      }
      if base.kind == AuctionDeal && base.auction != NO_ID && actor == Party(base.customer) && PrePaid(status) {
        status := Cancelled;
        return None, [cancelled, WinnerRejected(base.id, base.auction, base.customer, BuyerInitiatedCancel)];
      }
      status := Cancelled;
      return None, [cancelled];
    }

    method ApplyApprovedConfirmation(c: ConfirmationRow, now: Time) returns (err: Option<Error>, events: seq<DealEvent>)
      modifies this
      ensures Did(old(Value()).ApplyApprovedConfirmation(c, now), old(Value()), Value(), err, events)
    {
      if c.deal != base.id { return Some(ErrConfirmationDealMismatch), []; }
      if c.status != Approved { return Some(ErrConfirmationNotApproved), []; }
      if !Value().CanRequestStage(c.stage) { return Some(ErrInvalidStageTransition), []; }
      match c.stage {
        case StageConfirmed => err, events := Confirm(now);
        case StagePaid => return Some(ErrPaidOnlyThroughBilling), [];
        case StageShipped => err, events := MarkAsShipped();
        case StageCompleted => err, events := Complete();
        case StageCancelled =>
          var reason := if c.comment == NoReason then DEFAULT_CANCEL_REASON else c.comment;
          err, events := Cancel(reason, Party(c.requestedBy));
      }
    }
  }

  // A deposit is forfeited exactly by the cancellations of a deal that is not paid yet, and only by these three routes.
  lemma CancelForfeits(row: DealRow, reason: CancelReason, actor: Actor)
    requires row.Cancel(reason, actor).Ok?
    ensures var events := row.Cancel(reason, actor).value.events;
            var forfeits := exists e :: e in events && e.WinnerRejected?;
            var unpaid := row.status == Pending || row.status == Confirmed || row.status == ContractPrepared
                          || row.status == ContractSigned || row.status == PaymentRequested;
            var rejecting := reason == WinnerRejectedReason || reason == ConfirmationTimeout || reason == LegacyDeadlineExceeded;
            && (forfeits ==> unpaid && row.kind == AuctionDeal)
            && (forfeits <==>
                  || (rejecting && row.status == Pending)
                  || (reason == PaymentTimeout && row.status != Pending)
                  || (!rejecting && row.kind == AuctionDeal && row.auction != NO_ID && actor == Party(row.customer) && unpaid))
            && row.Cancel(reason, actor).value.row == row.(status := Cancelled)
  {
    var events := row.Cancel(reason, actor).value.events;
    if |events| == 2 {
      assert events[1] in events;
    }
  }

  // ---------- confirmation requests ----------

  datatype Stage = StageConfirmed | StagePaid | StageShipped | StageCompleted | StageCancelled

  datatype ConfirmationStatus = AwaitingApproval | Approved | Rejected | Expired

  datatype ConfirmationRow = ConfirmationRow(
    id: ConfirmationId,
    deal: DealId,
    stage: Stage,
    requestedByUser: UserId,
    requestedBy: CompanyId,
    counterparty: CompanyId,
    comment: CancelReason,
    expiresAt: Option<Time>,
    status: ConfirmationStatus
  ) {
    predicate ExpiredAt(now: Time) {
      expiresAt.Some? && now > expiresAt.value
    }

    // An error together with the status the object is left in.
    function Answer(company: CompanyId, user: UserId, now: Time, answer: ConfirmationStatus): (Option<Error>, ConfirmationRow) {
      if status != AwaitingApproval then (Some(ErrConfirmationNotPending), this)
      else if company == NO_ID || user == NO_ID then (Some(ErrCounterpartyRequired), this)
      else if company == requestedBy then (Some(ErrCounterpartyRequired), this)
      else if company != counterparty then (Some(ErrNotDealParticipant), this)
      else if ExpiredAt(now) then (Some(ErrConfirmationExpired), this.(status := Expired))
      else (None, this.(status := answer))
    }
  }

  function NewDealConfirmation(id: ConfirmationId, deal: DealId, stage: Stage, user: UserId, company: CompanyId,
                               counterparty: CompanyId, comment: CancelReason, expiresAt: Option<Time>): Result<ConfirmationRow>
  {
    if id == NO_ID then Err(ErrConfirmationIDRequired)
    else if deal == NO_ID then Err(ErrConfirmationDealIDRequired)
    else if user == NO_ID then Err(ErrRequestedByUserRequired)
    else if company == NO_ID then Err(ErrRequestedByCompanyRequired)
    else if counterparty == NO_ID then Err(ErrCounterpartyCompanyRequired)
    else if company == counterparty then Err(ErrCounterpartyRequired)
    else Ok(ConfirmationRow(id, deal, stage, user, company, counterparty, comment, expiresAt, AwaitingApproval))
  }

  class DealConfirmation {
    const base: ConfirmationRow // everything but the status
    var status: ConfirmationStatus

    constructor (row: ConfirmationRow)
      ensures Value() == row
    {
      base, status := row, row.status;
    }

    function Value(): ConfirmationRow
      reads this
    {
      base.(status := status)
    }

    method Approve(company: CompanyId, user: UserId, now: Time) returns (err: Option<Error>)
      modifies this
      ensures (err, Value()) == old(Value()).Answer(company, user, now, Approved)
    {
      if status != AwaitingApproval { return Some(ErrConfirmationNotPending); }
      if company == NO_ID || user == NO_ID { return Some(ErrCounterpartyRequired); }
      if company == base.requestedBy { return Some(ErrCounterpartyRequired); }
      if company != base.counterparty { return Some(ErrNotDealParticipant); }
      if base.ExpiredAt(now) {
        status := Expired;
        return Some(ErrConfirmationExpired);
      }
      status := Approved;
      return None;
    }

    method Reject(company: CompanyId, user: UserId, now: Time) returns (err: Option<Error>)
      modifies this
      ensures (err, Value()) == old(Value()).Answer(company, user, now, Rejected)
    {
      if status != AwaitingApproval { return Some(ErrConfirmationNotPending); }
      if company == NO_ID || user == NO_ID { return Some(ErrCounterpartyRequired); }
      if company == base.requestedBy { return Some(ErrCounterpartyRequired); }
      if company != base.counterparty { return Some(ErrNotDealParticipant); }
      if base.ExpiredAt(now) {
        status := Expired;
        return Some(ErrConfirmationExpired);
      }
      status := Rejected;
      return None;
    }
  }
}
