/**
 The billing tables and, for every billing use case, the state its transaction commits.
 BillingStore.dfy holds the use cases themselves, written the way the program runs them and proved to agree.
 */
module BillingRules {
  import opened Common
  import opened Money
  import opened Wallet
  import opened Ledger

  datatype BillingEvent =
    | DealInvoicePaid(deal: DealId, auction: AuctionId, buyer: CompanyId, goods: int, feeDue: int, amount: int)
    | DealInvoiceExpired(deal: DealId, auction: AuctionId, buyer: CompanyId, amount: int)

  // The tables of the billing schema, and the outbox rows whose source context is billing.
  datatype Billing = Billing(
    accounts: map<CompanyId, Balance>,
    deposits: map<DepositKey, DepositRow>,
    ledger: seq<Entry>,
    processed: set<PaymentId>,
    topUps: map<PaymentId, TopUpRow>,
    invoices: map<DealId, InvoiceRow>,
    payouts: map<DealId, PayoutRow>,
    outbox: seq<BillingEvent>
  )

  const NO_BILLING := Billing(map[], map[], [], {}, map[], map[], map[], [])

  // ---------- accounts and top-ups ----------

  function CreateAccount(b: Billing, company: CompanyId): Result<Billing> {
    if company == NO_ID then Err(ErrInvalidIdentifier)
    else if company in b.accounts then Ok(b)
    else Ok(b.(accounts := b.accounts[company := Balance(0, 0)]))
  }

  function TopUpKey(company: CompanyId, payment: PaymentId): Key {
    Key(company, ExternalPayment, PaymentRef(payment), TopUpConfirmed)
  }

  function ConfirmTopUp(b: Billing, company: CompanyId, amount: int, payment: PaymentId): Result<Billing> {
    if company == NO_ID || payment == NO_ID then Err(ErrInvalidIdentifier)
    else if amount <= 0 then Err(ErrInvalidAmount)
    else if company !in b.accounts then Err(ErrAccountNotFound)
    else if payment in b.processed then Ok(b)
    else
      var balance :- b.accounts[company].Deposit(amount);
      Ok(b.(processed := b.processed + {payment},
            accounts := b.accounts[company := balance],
            ledger := Append(b.ledger, Entry(TopUpKey(company, payment), amount))))
  }

  function CreateTopUp(b: Billing, company: CompanyId, amount: int, payment: PaymentId): Result<Billing> {
    if company == NO_ID then Err(ErrInvalidIdentifier)
    else if amount <= 0 then Err(ErrInvalidAmount)
    else
      var b1 :- CreateAccount(b, company);
      Ok(b1.(topUps := b1.topUps[payment := TopUpRow(company, amount, TopUpPending)]))
  }

  function ConfirmTopUpByProvider(b: Billing, payment: PaymentId, amount: int): Result<Billing> {
    if payment == NO_ID then Err(ErrInvalidIdentifier)
    else if payment !in b.topUps then Err(ErrTopUpNotFound)
    else
      var topUp := b.topUps[payment];
      if topUp.status == TopUpSucceeded then Ok(b)
      else if topUp.status != TopUpPending then Err(ErrInvalidTopUpStatus)
      else if amount != topUp.amount then Err(ErrTopUpAmountMismatch)
      else
        var b1 :- ConfirmTopUp(b, topUp.company, amount, payment);
        var done :- topUp.MarkSucceeded();
        Ok(b1.(topUps := b1.topUps[payment := done]))
  }

  // ---------- deposits ----------

  function ReserveKey(k: DepositKey): Key {
    Key(k.company, AuctionDepositReserve, DepositRef(k.auction, k.company, Plain), BidDepositReserved)
  }

  function CaptureKey(k: DepositKey): Key {
    Key(k.company, AuctionDepositCapture, DepositRef(k.auction, k.company, Plain), BidDepositCaptured)
  }

  function ReleaseKey(k: DepositKey): Key {
    Key(k.company, AuctionDepositRelease, DepositRef(k.auction, k.company, Plain), BidDepositReleased)
  }

  function ReserveAuctionDeposit(b: Billing, company: CompanyId, auction: AuctionId, startPrice: int): Result<Billing> {
    var k := DepositKey(auction, company);
    if company == NO_ID || auction == NO_ID then Err(ErrInvalidIdentifier)
    else if company !in b.accounts then Err(ErrAccountNotFound)
    else if k in b.deposits then
      if b.deposits[k].status == HELD then Ok(b) else Err(ErrDepositNotHeld)
    else
      var amount := DepositFromStartPrice(startPrice);
      if amount <= 0 then Err(ErrInvalidAmount)
      else match b.accounts[company].Reserve(amount) {
        case Err(e) => Err(if e == ErrInsufficientFunds then ErrInsufficientFundsForDeposit else e)
        case Ok(balance) =>
          var row :- NewAuctionDeposit(k, amount);
          Ok(b.(deposits := b.deposits[k := row],
                accounts := b.accounts[company := balance],
                ledger := Append(b.ledger, Entry(ReserveKey(k), amount))))
      }
  }

  // What a bid does to billing: the bidder gets an account if need be, and the deposit is reserved once.
  function ReserveForBid(b: Billing, bidder: CompanyId, auction: AuctionId, startPrice: int): Result<Billing> {
    var b1 :- CreateAccount(b, bidder);
    ReserveAuctionDeposit(b1, bidder, auction, startPrice)
  }

  // What every operation that ends a deposit writes: the account, the deposit's new status and ledger lines.
  function Post(b: Billing, k: DepositKey, balance: Balance, status: DepositStatus, ledger: seq<Entry>): Billing
    requires k in b.deposits
  {
    b.(deposits := b.deposits[k := b.deposits[k].(status := status)],
       accounts := b.accounts[k.company := balance],
       ledger := ledger)
  }

  function CaptureAuctionDeposit(b: Billing, company: CompanyId, auction: AuctionId): Result<Billing> {
    var k := DepositKey(auction, company);
    if company == NO_ID || auction == NO_ID then Err(ErrInvalidIdentifier)
    else if company !in b.accounts then Err(ErrAccountNotFound)
    else if k !in b.deposits then Err(ErrDepositNotFound)
    else if b.deposits[k].status == CAPTURED then Ok(b)
    else if b.deposits[k].status != HELD then Err(ErrDepositNotHeld)
    else if Exists(b.ledger, CaptureKey(k)) then Ok(b)
    else
      var amount := b.deposits[k].amount;
      var balance :- b.accounts[company].Capture(amount);
      Ok(Post(b, k, balance, CAPTURED, Append(b.ledger, Entry(CaptureKey(k), amount))))
  }

  function ReleaseAuctionDeposit(b: Billing, company: CompanyId, auction: AuctionId): Result<Billing> {
    var k := DepositKey(auction, company);
    if company == NO_ID || auction == NO_ID then Err(ErrInvalidIdentifier)
    else if company !in b.accounts then Err(ErrAccountNotFound)
    else if k !in b.deposits then Err(ErrDepositNotFound)
    else if b.deposits[k].status == RELEASED then Ok(b)
    else if b.deposits[k].status != HELD then Err(ErrDepositNotHeld)
    else if Exists(b.ledger, ReleaseKey(k)) then Ok(b)
    else
      var amount := b.deposits[k].amount;
      var balance :- b.accounts[company].Release(amount);
      Ok(Post(b, k, balance, RELEASED, Append(b.ledger, Entry(ReleaseKey(k), amount))))
  }

  // The companies with a deposit on an auction, in the order the repository lists them.
  function Depositors(deposits: map<DepositKey, DepositRow>, auction: AuctionId): set<CompanyId> {
    set k | k in deposits && k.auction == auction :: k.company
  }

  lemma {:induction false} LeastOf(s: set<nat>) returns (m: nat)
    requires s != {}
    ensures m in s && forall x | x in s :: m <= x
  {
    m :| m in s;
    if s != {m} {
      var least := LeastOf(s - {m});
      assert forall x | x in s :: x == m || x in s - {m};
      m := if m <= least then m else least;
    }
  }

  lemma LeastExists(s: set<nat>)
    requires s != {}
    ensures exists m :: m in s && forall x | x in s :: m <= x
  {
    var m := LeastOf(s);
  }

  function Least(s: set<nat>): (m: nat)
    requires s != {}
    ensures m in s && forall x | x in s :: m <= x
  {
    LeastExists(s);
    var m :| m in s && forall x | x in s :: m <= x;
    m
  }

  function Ascending(s: set<nat>): (q: seq<nat>)
    ensures forall x :: x in q <==> x in s
    ensures forall i, j :: 0 <= i < j < |q| ==> q[i] < q[j]
  {
    if s == {} then []
    else
      var m := Least(s);
      var rest := Ascending(s - {m});
      assert forall j :: 0 <= j < |rest| ==> rest[j] in s - {m};
      [m] + rest
  }

  function ListByAuction(deposits: map<DepositKey, DepositRow>, auction: AuctionId): (companies: seq<CompanyId>)
    ensures forall c :: c in companies <==> DepositKey(auction, c) in deposits
    ensures forall i, j :: 0 <= i < j < |companies| ==> companies[i] < companies[j]
  {
    assert forall c :: DepositKey(auction, c) in deposits ==> c in Depositors(deposits, auction) by {
      forall c | DepositKey(auction, c) in deposits
        ensures c in Depositors(deposits, auction)
      {
        assert DepositKey(auction, c).company == c;
      }
    }
    Ascending(Depositors(deposits, auction))
  }

  // One turn of the release loop.
  function ReleaseUnlessCandidate(b: Billing, auction: AuctionId, candidates: seq<CompanyId>, company: CompanyId): Result<Billing>
  {
    var k := DepositKey(auction, company);
    if company in candidates then Ok(b)
    else if k !in b.deposits || b.deposits[k].status != HELD then Ok(b)
    else if Exists(b.ledger, ReleaseKey(k)) then Ok(b)
    else if company !in b.accounts then Err(ErrAccountNotFound)
    else
      var amount := b.deposits[k].amount;
      var balance :- b.accounts[company].Release(amount);
      Ok(Post(b, k, balance, RELEASED, Append(b.ledger, Entry(ReleaseKey(k), amount))))
  }

  function ReleaseAllUnlessCandidate(b: Billing, auction: AuctionId, candidates: seq<CompanyId>, companies: seq<CompanyId>): Result<Billing>
  {
    if companies == [] then Ok(b)
    else
      var last := |companies| - 1;
      var b1 :- ReleaseAllUnlessCandidate(b, auction, candidates, companies[..last]);
      ReleaseUnlessCandidate(b1, auction, candidates, companies[last])
  }

  function ReleaseAuctionDepositsExceptCandidates(b: Billing, auction: AuctionId, candidates: seq<CompanyId>): Result<Billing>
  {
    if auction == NO_ID then Err(ErrInvalidIdentifier)
    else if NO_ID in candidates then Err(ErrInvalidIdentifier)
    else ReleaseAllUnlessCandidate(b, auction, candidates, ListByAuction(b.deposits, auction))
  }

  // ---------- settlement of the winner's deposit ----------

  function SettleFeeKey(k: DepositKey): Key {
    Key(k.company, WinnerDepositAfterInvoice, DepositRef(k.auction, k.company, Plain), PlatformFeeCaptured)
  }

  function SettleReleaseKey(k: DepositKey, s: Suffix): Key {
    Key(k.company, WinnerDepositAfterInvoice, DepositRef(k.auction, k.company, s), BidDepositReleased)
  }

  predicate SettlementRecorded(ledger: seq<Entry>, k: DepositKey) {
    || Exists(ledger, SettleFeeKey(k))
    || Exists(ledger, SettleReleaseKey(k, Remainder))
    || Exists(ledger, SettleReleaseKey(k, FullRelease))
    || Exists(ledger, SettleReleaseKey(k, FeeZero))
  }

  function SettleWinnerDeposit(b: Billing, auction: AuctionId, company: CompanyId, goods: int, feePaid: int): Result<Billing>
  {
    var k := DepositKey(auction, company);
    if auction == NO_ID || company == NO_ID then Err(ErrInvalidIdentifier)
    else if goods <= 0 then Err(ErrInvalidAmount)
    else if k !in b.deposits then Err(ErrDepositNotFound)
    else if b.deposits[k].status != HELD then Ok(b)
    else
      var amount := b.deposits[k].amount;
      var fee := PlatformFee(goods);
      var expectedDue := if fee - amount < 0 then 0 else fee - amount;
      if feePaid != expectedDue then Err(ErrPlatformFeeDueMismatch)
      else if SettlementRecorded(b.ledger, k) then Ok(b)
      else if company !in b.accounts then Err(ErrAccountNotFound)
      else if fee <= 0 then
        var balance :- b.accounts[company].Release(amount);
        Ok(Post(b, k, balance, RELEASED, Append(b.ledger, Entry(SettleReleaseKey(k, FeeZero), amount))))
      else
        var capture := if fee < amount then fee else amount;
        var release := amount - capture;
        if capture > 0 && release > 0 then
          var captured :- b.accounts[company].Capture(capture);
          var balance :- captured.Release(release);
          Ok(Post(b, k, balance, SETTLED,
                  Append(Append(b.ledger, Entry(SettleFeeKey(k), capture)), Entry(SettleReleaseKey(k, Remainder), release))))
        else if capture > 0 && release == 0 then
          var balance :- b.accounts[company].Capture(capture);
          Ok(Post(b, k, balance, CAPTURED, Append(b.ledger, Entry(SettleFeeKey(k), capture))))
        else
          var balance :- b.accounts[company].Release(release);
          Ok(Post(b, k, balance, RELEASED, Append(b.ledger, Entry(SettleReleaseKey(k, FullRelease), release))))
  }

  // The other implementation of the same split, which does not look at an invoice.
  function FeeLineKey(k: DepositKey): Key {
    Key(k.company, FeeFromDeposit, DepositRef(k.auction, k.company, Plain), PlatformFeeCaptured)
  }

  function FeeZeroKey(k: DepositKey): Key {
    Key(k.company, FeeFromDepositZero, DepositRef(k.auction, k.company, Plain), BidDepositReleased)
  }

  function FeeRemainderKey(k: DepositKey): Key {
    Key(k.company, FeeDepositRemainder, DepositRef(k.auction, k.company, Remainder), BidDepositReleased)
  }

  function FeeDueKey(k: DepositKey): Key {
    Key(k.company, ReferenceType.FeeDue, DepositRef(k.auction, k.company, Due), PlatformFeeDue)
  }

  function CapturePlatformFeeFromDeposit(b: Billing, company: CompanyId, auction: AuctionId, finalPrice: int): Result<Billing>
  {
    var k := DepositKey(auction, company);
    if company == NO_ID || auction == NO_ID then Err(ErrInvalidIdentifier)
    else if finalPrice < 0 then Err(ErrInvalidAmount)
    else if Exists(b.ledger, FeeLineKey(k)) || Exists(b.ledger, FeeZeroKey(k)) then Ok(b)
    else if company !in b.accounts then Err(ErrAccountNotFound)
    else if k !in b.deposits then Err(ErrDepositNotFound)
    else if b.deposits[k].status != HELD then Err(ErrDepositNotHeld)
    else
      var fee := PlatformFee(finalPrice);
      var amount := b.deposits[k].amount;
      if fee <= 0 then
        var balance :- b.accounts[company].Release(amount);
        Ok(Post(b, k, balance, RELEASED, Append(b.ledger, Entry(FeeZeroKey(k), amount))))
      else if amount > fee then
        var captured :- b.accounts[company].Capture(fee);
        var balance :- captured.Release(amount - fee);
        Ok(Post(b, k, balance, SETTLED,
                Append(Append(b.ledger, Entry(FeeLineKey(k), fee)), Entry(FeeRemainderKey(k), amount - fee))))
      else if amount == fee then
        var balance :- b.accounts[company].Capture(amount);
        Ok(Post(b, k, balance, CAPTURED, Append(b.ledger, Entry(FeeLineKey(k), amount))))
      else
        var balance :- b.accounts[company].Capture(amount);
        Ok(Post(b, k, balance, CAPTURED,
                Append(Append(b.ledger, Entry(FeeLineKey(k), amount)), Entry(FeeDueKey(k), fee - amount))))
  }

  // ---------- invoices ----------

  datatype InvoiceCommand = InvoiceCommand(
    deal: DealId,
    auction: AuctionId,
    buyer: CompanyId,
    seller: CompanyId,
    goods: int,
    dueAt: Time
  )

  function EffectiveDue(dueAt: Time, now: Time): Time {
    var due := if dueAt == ZERO_TIME then now + 24 * HOUR else dueAt;
    if due < now then now + 24 * HOUR else due
  }

  // providerAnswers says whether the payment provider accepted the request.
  function CreateDealInvoice(b: Billing, cmd: InvoiceCommand, now: Time, providerAnswers: bool): Result<Billing> {
    if cmd.deal == NO_ID || cmd.buyer == NO_ID || cmd.seller == NO_ID then Err(ErrInvalidIdentifier)
    else if cmd.buyer == cmd.seller then Err(ErrInvalidDealInvoice)
    else if cmd.goods <= 0 then Err(ErrInvalidAmount)
    else if cmd.deal in b.invoices then Ok(b)
    else
      var k := DepositKey(cmd.auction, cmd.buyer);
      if cmd.auction != NO_ID && k !in b.deposits then Err(ErrNilDereference)
      else
        var held := if cmd.auction != NO_ID && b.deposits[k].status == HELD then b.deposits[k].amount else 0;
        var fee := PlatformFee(cmd.goods);
        var due := if fee - held < 0 then 0 else fee - held;
        var created :- NewDealInvoice(cmd.deal, cmd.auction, cmd.buyer, cmd.seller, cmd.goods, due, EffectiveDue(cmd.dueAt, now), now);
        if !providerAnswers then Err(ErrPaymentProvider)
        else
          var invoice :- created.AttachProvider();
          Ok(b.(invoices := b.invoices[cmd.deal := invoice]))
  }

  function ConfirmDealInvoicePaid(b: Billing, deal: DealId): Result<Billing> {
    if deal == NO_ID then Err(ErrInvalidIdentifier)
    else if deal !in b.invoices then Err(ErrDealInvoiceNotFound)
    else
      var invoice := b.invoices[deal];
      if invoice.status in {InvoiceExpired, InvoiceCancelled, InvoiceFailed} then Err(ErrInvoiceNotPayable)
      else
        var paid :- invoice.MarkPaidIdempotent(invoice.total);
        if invoice.status == InvoicePaid then Ok(b)
        else
          Ok(b.(invoices := b.invoices[deal := paid],
                outbox := b.outbox + [DealInvoicePaid(invoice.deal, invoice.auction, invoice.buyer, invoice.goods, invoice.feeDue, invoice.total)]))
  }

  function ExpireDealInvoice(b: Billing, deal: DealId, now: Time): Result<Billing> {
    if deal == NO_ID then Err(ErrInvalidIdentifier)
    else if deal !in b.invoices then Err(ErrDealInvoiceNotFound)
    else
      var invoice := b.invoices[deal];
      if invoice.status in {InvoicePaid, InvoiceExpired} then Ok(b)
      else if invoice.status != InvoicePaymentPending then Err(ErrInvoiceNotExpirable)
      else if invoice.dueAt > now then Err(ErrInvoiceNotExpired)
      else
        var expired :- invoice.MarkExpired();
        Ok(b.(invoices := b.invoices[deal := expired],
              outbox := b.outbox + [DealInvoiceExpired(invoice.deal, invoice.auction, invoice.buyer, invoice.total)]))
  }

  // ---------- payouts ----------

  datatype PayoutCommand = PayoutCommand(deal: DealId, auction: AuctionId, buyer: CompanyId, goods: int, feeDue: int)

  function CreateSellerPayout(b: Billing, cmd: PayoutCommand): Result<Billing> {
    if cmd.deal == NO_ID || cmd.auction == NO_ID || cmd.buyer == NO_ID then Err(ErrInvalidIdentifier)
    else if cmd.goods <= 0 then Err(ErrInvalidAmount)
    else if cmd.deal in b.payouts then Ok(b)
    else if cmd.deal !in b.invoices then Err(ErrDealInvoiceNotFound)
    else
      var invoice := b.invoices[cmd.deal];
      if invoice.status != InvoicePaid then Err(ErrInvoiceNotPayable)
      else if invoice.auction != cmd.auction then Err(ErrSellerPayoutInvoiceMismatch)
      else if invoice.buyer != cmd.buyer then Err(ErrSellerPayoutInvoiceMismatch)
      else if invoice.goods != cmd.goods then Err(ErrSellerPayoutInvoiceMismatch)
      else if invoice.feeDue != cmd.feeDue then Err(ErrSellerPayoutInvoiceMismatch)
      else if invoice.buyer == invoice.seller then Err(ErrInvalidSellerPayout)
      else
        var payout :- NewSellerPayout(invoice.deal, invoice.auction, invoice.seller, invoice.buyer, invoice.goods);
        Ok(b.(payouts := b.payouts[cmd.deal := payout]))
  }

  function MarkSellerPayoutReady(b: Billing, deal: DealId): Result<Billing> {
    if deal == NO_ID then Err(ErrInvalidIdentifier)
    else if deal !in b.payouts then Err(ErrSellerPayoutNotFound)
    else match b.payouts[deal].status {
      case PayoutReady => Ok(b)
      case PayoutPaid => Ok(b)
      case PayoutPending =>
        var ready :- b.payouts[deal].MarkReady();
        Ok(b.(payouts := b.payouts[deal := ready]))
      case _ => Err(ErrSellerPayoutWrongStatus)
    }
  }

  function MarkSellerPayoutFailed(b: Billing, deal: DealId): Result<Billing> {
    if deal == NO_ID then Err(ErrInvalidIdentifier)
    else if deal !in b.payouts then Err(ErrSellerPayoutNotFound)
    else
      var failed :- b.payouts[deal].MarkFailed();
      Ok(b.(payouts := b.payouts[deal := failed]))
  }

  function CreditKey(p: PayoutRow): Key {
    CreditTo(p.deal, p.seller)
  }

  function MarkSellerPayoutPaid(b: Billing, deal: DealId): Result<Billing> {
    if deal == NO_ID then Err(ErrInvalidIdentifier)
    else if deal !in b.payouts then Err(ErrSellerPayoutNotFound)
    else
      var p := b.payouts[deal];
      var credited := Exists(b.ledger, CreditKey(p));
      if p.status == PayoutPaid then
        if credited then Ok(b)
        else
          // Paid without a ledger line: write the line, credit nothing.
          var b1 :- CreateAccount(b, p.seller);
          Ok(b1.(ledger := Append(b1.ledger, Entry(CreditKey(p), p.amount))))
      else if p.status != PayoutReady then Err(ErrSellerPayoutWrongStatus)
      else if credited then
        // A ledger line without the status: finish the status, credit nothing.
        var paid :- p.MarkPaid();
        Ok(b.(payouts := b.payouts[deal := paid]))
      else
        var b1 :- CreateAccount(b, p.seller);
        var balance :- b1.accounts[p.seller].Deposit(p.amount);
        var paid :- p.MarkPaid();
        Ok(b1.(accounts := b1.accounts[p.seller := balance],
               payouts := b1.payouts[deal := paid],
               ledger := Append(b1.ledger, Entry(CreditKey(p), p.amount))))
  }

  // ---------- what the settlement event handlers run in one transaction ----------

  // deals.WinnerSelectionFinalized: check the paid invoice, settle the winner, release everyone else, owe the seller.
  function FinalizeAuction(b: Billing, cmd: PayoutCommand): Result<Billing> {
    if cmd.deal !in b.invoices then Err(ErrDealInvoiceNotFound)
    else
      var invoice := b.invoices[cmd.deal];
      if invoice.status != InvoicePaid then Err(ErrInvoiceNotPayable)
      else if invoice.auction != cmd.auction || invoice.buyer != cmd.buyer then Err(ErrSellerPayoutInvoiceMismatch)
      else if invoice.goods != cmd.goods || invoice.feeDue != cmd.feeDue then Err(ErrSellerPayoutInvoiceMismatch)
      else
        var b1 :- SettleWinnerDeposit(b, cmd.auction, cmd.buyer, cmd.goods, cmd.feeDue);
        var b2 :- ReleaseAuctionDepositsExceptCandidates(b1, cmd.auction, [cmd.buyer]);
        CreateSellerPayout(b2, cmd)
  }
}
