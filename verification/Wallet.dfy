/** The wallet domain objects. Each class updates its fields in place; its row is the value a repository stores. */
module Wallet {
  import opened Common

  // ---------- account ----------

  datatype Balance = Balance(available: nat, held: nat) {
    function Total(): nat { available + held }

    function Deposit(amount: int): Result<Balance> {
      if amount <= 0 then Err(ErrInvalidAmount)
      else Ok(Balance(available + amount, held))
    }

    function Reserve(amount: int): Result<Balance> {
      if amount <= 0 then Err(ErrInvalidAmount)
      else if available < amount then Err(ErrInsufficientFunds)
      else Ok(Balance(available - amount, held + amount))
    }

    function Release(amount: int): Result<Balance> {
      if amount <= 0 then Err(ErrInvalidAmount)
      else if held < amount then Err(ErrInsufficientHeld)
      else Ok(Balance(available + amount, held - amount))
    }

    function Capture(amount: int): Result<Balance> {
      if amount <= 0 then Err(ErrInvalidAmount)
      else if held < amount then Err(ErrInsufficientHeld)
      else Ok(Balance(available, held - amount))
    }
  }

  function Or<T>(r: Result<T>, otherwise: T): T {
    if r.Ok? then r.value else otherwise
  }

  class Account {
    const companyID: CompanyId
    var available: nat
    var held: nat

    constructor (companyID: CompanyId, balance: Balance)
      ensures this.companyID == companyID && Value() == balance
    {
      this.companyID := companyID;
      available, held := balance.available, balance.held;
    }

    function Value(): Balance
      reads this
    {
      Balance(available, held)
    }

    method Deposit(amount: int) returns (err: Option<Error>)
      modifies this
      ensures err == old(Value()).Deposit(amount).Failure()
      ensures Value() == Or(old(Value()).Deposit(amount), old(Value()))
    {
      if amount <= 0 { return Some(ErrInvalidAmount); }
      available := available + amount;
      return None;
    }

    method Reserve(amount: int) returns (err: Option<Error>)
      modifies this
      ensures err == old(Value()).Reserve(amount).Failure()
      ensures Value() == Or(old(Value()).Reserve(amount), old(Value()))
    {
      if amount <= 0 { return Some(ErrInvalidAmount); }
      if available < amount { return Some(ErrInsufficientFunds); }
      available := available - amount;
      held := held + amount;
      return None;
    }

    method Release(amount: int) returns (err: Option<Error>)
      modifies this
      ensures err == old(Value()).Release(amount).Failure()
      ensures Value() == Or(old(Value()).Release(amount), old(Value()))
    {
      if amount <= 0 { return Some(ErrInvalidAmount); }
      if held < amount { return Some(ErrInsufficientHeld); }
      held := held - amount;
      available := available + amount;
      return None;
    }

    method Capture(amount: int) returns (err: Option<Error>)
      modifies this
      ensures err == old(Value()).Capture(amount).Failure()
      ensures Value() == Or(old(Value()).Capture(amount), old(Value()))
    {
      if amount <= 0 { return Some(ErrInvalidAmount); }
      if held < amount { return Some(ErrInsufficientHeld); }
      held := held - amount;
      return None;
    }
  }

  // Reserving and then releasing the same amount restores the account; reserving and then capturing loses exactly it.
  lemma ReserveThenReleaseOrCapture(b: Balance, amount: int)
    requires b.Reserve(amount).Ok?
    ensures b.Reserve(amount).value.Release(amount) == Ok(b)
    ensures var after := b.Reserve(amount).value.Capture(amount);
            after.Ok? && after.value.held == b.held && after.value.Total() == b.Total() - amount
  {
    var r := b.Reserve(amount).value;
    assert r.held >= amount;
  }

  // Every operation takes a positive amount that the balance it draws on covers. A deposit adds it to what the company
  // owns, a capture takes it away, and reserving and releasing move it between the two balances.
  lemma MovesExactly(b: Balance, amount: int)
    ensures b.Deposit(amount).Ok? <==> amount >= 1
    ensures b.Reserve(amount).Ok? <==> 1 <= amount <= b.available
    ensures b.Release(amount).Ok? <==> 1 <= amount <= b.held
    ensures b.Capture(amount).Ok? <==> 1 <= amount <= b.held
    ensures b.Deposit(amount).Ok? ==> b.Deposit(amount).value.held == b.held && b.Deposit(amount).value.Total() == b.Total() + amount
    ensures b.Capture(amount).Ok? ==> b.Capture(amount).value.available == b.available && b.Capture(amount).value.Total() == b.Total() - amount
    ensures b.Reserve(amount).Ok? ==> b.Reserve(amount).value.held == b.held + amount && b.Reserve(amount).value.Total() == b.Total()
    ensures b.Release(amount).Ok? ==> b.Release(amount).value.held == b.held - amount && b.Release(amount).value.Total() == b.Total()
  {
  }

  // ---------- auction deposit ----------

  datatype DepositStatus = HELD | RELEASED | CAPTURED | SETTLED

  datatype DepositKey = DepositKey(auction: AuctionId, company: CompanyId)

  datatype DepositRow = DepositRow(amount: nat, status: DepositStatus)

  class AuctionDeposit {
    const key: DepositKey
    const amount: nat
    var status: DepositStatus

    constructor (key: DepositKey, row: DepositRow)
      ensures this.key == key && Value() == row
    {
      this.key := key;
      amount, status := row.amount, row.status;
    }

    function Value(): DepositRow
      reads this
    {
      DepositRow(amount, status)
    }

    method MarkReleased()
      modifies this
      ensures Value() == old(Value()).(status := RELEASED)
    {
      status := RELEASED;
    }

    method MarkCaptured()
      modifies this
      ensures Value() == old(Value()).(status := CAPTURED)
    {
      status := CAPTURED;
    }

    method MarkSettled()
      modifies this
      ensures Value() == old(Value()).(status := SETTLED)
    {
      status := SETTLED;
    }
  }

  function NewAuctionDeposit(key: DepositKey, amount: int): Result<DepositRow> {
    if key.auction == NO_ID || key.company == NO_ID then Err(ErrInvalidIdentifier)
    else if amount <= 0 then Err(ErrInvalidAmount)
    else Ok(DepositRow(amount, HELD))
  }

  // ---------- top-up ----------

  datatype TopUpStatus = TopUpPending | TopUpSucceeded | TopUpFailed | TopUpCancelled

  datatype TopUpRow = TopUpRow(company: CompanyId, amount: nat, status: TopUpStatus) {
    function MarkSucceeded(): Result<TopUpRow> {
      if status != TopUpPending then Err(ErrInvalidTopUpStatus)
      else Ok(this.(status := TopUpSucceeded))
    }
  }

  class TopUp {
    const company: CompanyId
    const amount: nat
    var status: TopUpStatus

    constructor (row: TopUpRow)
      ensures Value() == row
    {
      company, amount, status := row.company, row.amount, row.status;
    }

    function Value(): TopUpRow
      reads this
    {
      TopUpRow(company, amount, status)
    }

    method MarkSucceeded() returns (err: Option<Error>)
      modifies this
      ensures err == old(Value()).MarkSucceeded().Failure()
      ensures Value() == Or(old(Value()).MarkSucceeded(), old(Value()))
    {
      if status != TopUpPending { return Some(ErrInvalidTopUpStatus); }
      status := TopUpSucceeded;
      return None;
    }
  }

  // ---------- deal invoice ----------

  datatype InvoiceStatus =
    | InvoicePending
    | InvoicePaymentPending
    | InvoicePaid
    | InvoiceExpired
    | InvoiceCancelled
    | InvoiceFailed

  datatype InvoiceRow = InvoiceRow(
    deal: DealId,
    auction: AuctionId,
    buyer: CompanyId,
    seller: CompanyId,
    goods: int,
    feeDue: int,
    total: int,
    status: InvoiceStatus,
    dueAt: Time
  ) {
    function AttachProvider(): Result<InvoiceRow> {
      if status != InvoicePending then Err(ErrInvalidDealInvoice)
      else Ok(this.(status := InvoicePaymentPending))
    }

    function MarkPaid(amount: int): Result<InvoiceRow> {
      if status != InvoicePaymentPending then Err(ErrInvoiceNotPayable)
      else if amount != total then Err(ErrInvoiceAmountMismatch)
      else Ok(this.(status := InvoicePaid))
    }

    function MarkPaidIdempotent(amount: int): Result<InvoiceRow> {
      if status == InvoicePaid then
        if amount != total then Err(ErrInvoiceAmountMismatch) else Ok(this)
      else MarkPaid(amount)
    }

    function MarkExpired(): Result<InvoiceRow> {
      match status
      case InvoicePaid => Ok(this)
      case InvoiceExpired => Ok(this)
      case InvoicePaymentPending => Ok(this.(status := InvoiceExpired))
      case _ => Err(ErrInvoiceNotExpirable)
    }
  }

  function NewDealInvoice(deal: DealId, auction: AuctionId, buyer: CompanyId, seller: CompanyId,
                          goods: int, feeDue: int, dueAt: Time, createdAt: Time): Result<InvoiceRow>
  {
    if deal == NO_ID || buyer == NO_ID || seller == NO_ID then Err(ErrInvalidIdentifier)
    else if buyer == seller then Err(ErrInvalidDealInvoice)
    else if goods <= 0 || feeDue < 0 then Err(ErrInvalidAmount)
    else if dueAt < createdAt then Err(ErrInvalidDealInvoice)
    else Ok(InvoiceRow(deal, auction, buyer, seller, goods, feeDue, goods + feeDue, InvoicePending, dueAt))
  }

  class DealInvoice {
    const row: InvoiceRow // the immutable snapshot; its status is superseded by the field below
    var status: InvoiceStatus

    constructor (row: InvoiceRow)
      ensures Value() == row
    {
      this.row, status := row, row.status;
    }

    function Value(): InvoiceRow
      reads this
    {
      row.(status := status)
    }

    method AttachProvider() returns (err: Option<Error>)
      modifies this
      ensures err == old(Value()).AttachProvider().Failure()
      ensures Value() == Or(old(Value()).AttachProvider(), old(Value()))
    {
      if status != InvoicePending { return Some(ErrInvalidDealInvoice); }
      status := InvoicePaymentPending;
      return None;
    }

    method MarkPaid(amount: int) returns (err: Option<Error>)
      modifies this
      ensures err == old(Value()).MarkPaid(amount).Failure()
      ensures Value() == Or(old(Value()).MarkPaid(amount), old(Value()))
    {
      if status != InvoicePaymentPending { return Some(ErrInvoiceNotPayable); }
      if amount != row.total { return Some(ErrInvoiceAmountMismatch); }
      status := InvoicePaid;
      return None;
    }

    method MarkPaidIdempotent(amount: int) returns (err: Option<Error>)
      modifies this
      ensures err == old(Value()).MarkPaidIdempotent(amount).Failure()
      ensures Value() == Or(old(Value()).MarkPaidIdempotent(amount), old(Value()))
    {
      if status == InvoicePaid {
        if amount != row.total { return Some(ErrInvoiceAmountMismatch); }
        return None;
      }
      err := MarkPaid(amount);
    }

    method MarkExpired() returns (err: Option<Error>)
      modifies this
      ensures err == old(Value()).MarkExpired().Failure()
      ensures Value() == Or(old(Value()).MarkExpired(), old(Value()))
    {
      match status {
        case InvoicePaid => return None;
        case InvoiceExpired => return None;
        case InvoicePaymentPending =>
          status := InvoiceExpired;
          return None;
        case _ => return Some(ErrInvoiceNotExpirable);
      }
    }
  }

  // ---------- seller payout ----------

  datatype PayoutStatus = PayoutPending | PayoutReady | PayoutPaid | PayoutCancelled | PayoutFailed

  datatype PayoutRow = PayoutRow(
    deal: DealId,
    auction: AuctionId,
    seller: CompanyId,
    buyer: CompanyId,
    amount: int,
    status: PayoutStatus
  ) {
    function MarkReady(): Result<PayoutRow> {
      if status == PayoutReady || status == PayoutPaid then Ok(this)
      else if status != PayoutPending then Err(ErrSellerPayoutWrongStatus)
      else Ok(this.(status := PayoutReady))
    }

    function MarkFailed(): Result<PayoutRow> {
      if status == PayoutFailed then Ok(this)
      else if status == PayoutPaid then Err(ErrSellerPayoutWrongStatus)
      else if status != PayoutPending && status != PayoutReady then Err(ErrSellerPayoutWrongStatus)
      else Ok(this.(status := PayoutFailed))
    }

    function MarkPaid(): Result<PayoutRow> {
      if status == PayoutPaid then Ok(this)
      else if status != PayoutReady then Err(ErrSellerPayoutWrongStatus)
      else Ok(this.(status := PayoutPaid))
    }
  }

  function NewSellerPayout(deal: DealId, auction: AuctionId, seller: CompanyId, buyer: CompanyId,
                           amount: int): Result<PayoutRow>
  {
    if deal == NO_ID || auction == NO_ID || seller == NO_ID || buyer == NO_ID then Err(ErrInvalidIdentifier)
    else if seller == buyer then Err(ErrInvalidSellerPayout)
    else if amount <= 0 then Err(ErrInvalidAmount)
    else Ok(PayoutRow(deal, auction, seller, buyer, amount, PayoutPending))
  }

  class SellerPayout {
    const row: PayoutRow // the immutable snapshot; its status is superseded by the field below
    var status: PayoutStatus

    constructor (row: PayoutRow)
      ensures Value() == row
    {
      this.row, status := row, row.status;
    }

    function Value(): PayoutRow
      reads this
    {
      row.(status := status)
    }

    method MarkReady() returns (err: Option<Error>)
      modifies this
      ensures err == old(Value()).MarkReady().Failure()
      ensures Value() == Or(old(Value()).MarkReady(), old(Value()))
    {
      if status == PayoutReady || status == PayoutPaid { return None; }
      if status != PayoutPending { return Some(ErrSellerPayoutWrongStatus); }
      status := PayoutReady;
      return None;
    }

    method MarkFailed() returns (err: Option<Error>)
      modifies this
      ensures err == old(Value()).MarkFailed().Failure()
      ensures Value() == Or(old(Value()).MarkFailed(), old(Value()))
    {
      if status == PayoutFailed { return None; }
      if status == PayoutPaid { return Some(ErrSellerPayoutWrongStatus); }
      if status != PayoutPending && status != PayoutReady { return Some(ErrSellerPayoutWrongStatus); }
      status := PayoutFailed;
      return None;
    }

    method MarkPaid() returns (err: Option<Error>)
      modifies this
      ensures err == old(Value()).MarkPaid().Failure()
      ensures Value() == Or(old(Value()).MarkPaid(), old(Value()))
    {
      if status == PayoutPaid { return None; }
      if status != PayoutReady { return Some(ErrSellerPayoutWrongStatus); }
      status := PayoutPaid;
      return None;
    }
  }
}
