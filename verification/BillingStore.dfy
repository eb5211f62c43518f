/**
 The billing use cases as the program runs them: load rows into domain objects, change the objects, save them and
 append ledger lines. Each is proved to commit exactly the state BillingRules gives, or to report exactly its error;
 what a failed use case leaves behind is not promised, because the transaction around it is rolled back.
 */
module BillingStore {
  import opened Common
  import opened Money
  import opened Wallet
  import opened Ledger
  import opened BillingRules

  // The error and, on success, the state are those of r.
  predicate Committed(r: Result<Billing>, err: Option<Error>, after: Billing) {
    err == r.Failure() && (err.None? ==> after == r.value)
  }

  class Store {
    var accounts: map<CompanyId, Balance>
    var deposits: map<DepositKey, DepositRow>
    var ledger: seq<Entry>
    var processed: set<PaymentId>
    var topUps: map<PaymentId, TopUpRow>
    var invoices: map<DealId, InvoiceRow>
    var payouts: map<DealId, PayoutRow>
    var outbox: seq<BillingEvent>

    constructor ()
      ensures State() == NO_BILLING
    {
      accounts, deposits, ledger, processed := map[], map[], [], {};
      topUps, invoices, payouts, outbox := map[], map[], map[], [];
    }

    function State(): Billing
      reads this
    {
      Billing(accounts, deposits, ledger, processed, topUps, invoices, payouts, outbox)
    }

    // Puts back the tables a transaction started from.
    method Restore(b: Billing)
      modifies this
      ensures State() == b
    {
      accounts, deposits, ledger, processed := b.accounts, b.deposits, b.ledger, b.processed;
      topUps, invoices, payouts, outbox := b.topUps, b.invoices, b.payouts, b.outbox;
    }

    // ---------- repositories ----------

    method LoadAccount(company: CompanyId) returns (acc: Account)
      requires company in accounts
      ensures fresh(acc) && acc.companyID == company && acc.Value() == accounts[company]
    {
      acc := new Account(company, accounts[company]);
    }

    method SaveAccount(acc: Account)
      modifies this
      ensures State() == old(State()).(accounts := old(accounts)[acc.companyID := old(acc.Value())])
    {
      accounts := accounts[acc.companyID := acc.Value()];
    }

    method LoadDeposit(key: DepositKey) returns (dep: AuctionDeposit)
      requires key in deposits
      ensures fresh(dep) && dep.key == key && dep.Value() == deposits[key]
    {
      dep := new AuctionDeposit(key, deposits[key]);
    }

    method SaveDeposit(dep: AuctionDeposit)
      modifies this
      ensures State() == old(State()).(deposits := old(deposits)[dep.key := old(dep.Value())])
    {
      deposits := deposits[dep.key := dep.Value()];
    }

    method AppendLine(key: Key, amount: int)
      modifies this
      ensures State() == old(State()).(ledger := Append(old(ledger), Entry(key, amount)))
    {
      if !Exists(ledger, key) {
        ledger := ledger + [Entry(key, amount)];
      }
    }

    // ---------- accounts and top-ups ----------

    method CreateAccount(company: CompanyId) returns (err: Option<Error>)
      modifies this
      ensures Committed(BillingRules.CreateAccount(old(State()), company), err, State())
    {
      if company == NO_ID { return Some(ErrInvalidIdentifier); }
      if company in accounts { return None; }
      accounts := accounts[company := Balance(0, 0)];
      return None;
    }

    method ConfirmTopUp(company: CompanyId, amount: int, payment: PaymentId) returns (err: Option<Error>)
      modifies this
      ensures Committed(BillingRules.ConfirmTopUp(old(State()), company, amount, payment), err, State())
    {
      if company == NO_ID || payment == NO_ID { return Some(ErrInvalidIdentifier); }
      if amount <= 0 { return Some(ErrInvalidAmount); }
      if company !in accounts { return Some(ErrAccountNotFound); }
      var acc := LoadAccount(company);
      if payment in processed { return None; }
      processed := processed + {payment};
      err := acc.Deposit(amount);
      if err.Some? { return; }
      SaveAccount(acc);
      AppendLine(TopUpKey(company, payment), amount);
    }

    method CreateTopUp(company: CompanyId, amount: int, payment: PaymentId) returns (err: Option<Error>)
      modifies this
      ensures Committed(BillingRules.CreateTopUp(old(State()), company, amount, payment), err, State())
    {
      if company == NO_ID { return Some(ErrInvalidIdentifier); }
      if amount <= 0 { return Some(ErrInvalidAmount); }
      err := CreateAccount(company);
      if err.Some? { return; }
      topUps := topUps[payment := TopUpRow(company, amount, TopUpPending)];
    }

    method ConfirmTopUpByProvider(payment: PaymentId, amount: int) returns (err: Option<Error>)
      modifies this
      ensures Committed(BillingRules.ConfirmTopUpByProvider(old(State()), payment, amount), err, State())
    {
      if payment == NO_ID { return Some(ErrInvalidIdentifier); }
      if payment !in topUps { return Some(ErrTopUpNotFound); }
      var topUp := new TopUp(topUps[payment]);
      if topUp.status == TopUpSucceeded { return None; }
      if topUp.status != TopUpPending { return Some(ErrInvalidTopUpStatus); }
      if amount != topUp.amount { return Some(ErrTopUpAmountMismatch); }
      err := ConfirmTopUp(topUp.company, amount, payment);
      if err.Some? { return; }
      err := topUp.MarkSucceeded();
      if err.Some? { return; }
      topUps := topUps[payment := topUp.Value()];
    }

    // ---------- deposits ----------

    method ReserveAuctionDeposit(company: CompanyId, auction: AuctionId, startPrice: int) returns (err: Option<Error>)
      modifies this
      ensures Committed(BillingRules.ReserveAuctionDeposit(old(State()), company, auction, startPrice), err, State())
    {
      if company == NO_ID || auction == NO_ID { return Some(ErrInvalidIdentifier); }
      if company !in accounts { return Some(ErrAccountNotFound); }
      var acc := LoadAccount(company);
      var key := DepositKey(auction, company);
      if key in deposits {
        if deposits[key].status == HELD { return None; }
        return Some(ErrDepositNotHeld);
      }
      var amount := DepositFromStartPrice(startPrice);
      if amount <= 0 { return Some(ErrInvalidAmount); }
      err := acc.Reserve(amount);
      if err.Some? {
        if err.value == ErrInsufficientFunds { return Some(ErrInsufficientFundsForDeposit); }
        return;
      }
      var row := NewAuctionDeposit(key, amount);
      err := row.Failure();
      if err.Some? { return; }
      deposits := deposits[key := row.value];
      SaveAccount(acc);
      if Exists(ledger, ReserveKey(key)) { return None; }
      AppendLine(ReserveKey(key), amount);
    }

    method CaptureAuctionDeposit(company: CompanyId, auction: AuctionId) returns (err: Option<Error>)
      modifies this
      ensures Committed(BillingRules.CaptureAuctionDeposit(old(State()), company, auction), err, State())
    {
      if company == NO_ID || auction == NO_ID { return Some(ErrInvalidIdentifier); }
      if company !in accounts { return Some(ErrAccountNotFound); }
      var acc := LoadAccount(company);
      var key := DepositKey(auction, company);
      if key !in deposits { return Some(ErrDepositNotFound); }
      var dep := LoadDeposit(key);
      if dep.status == CAPTURED { return None; }
      if dep.status != HELD { return Some(ErrDepositNotHeld); }
      if Exists(ledger, CaptureKey(key)) { return None; }
      err := acc.Capture(dep.amount);
      if err.Some? { return; }
      dep.MarkCaptured();
      SaveDeposit(dep);
      SaveAccount(acc);
      AppendLine(CaptureKey(key), dep.amount);
    }

    method ReleaseAuctionDeposit(company: CompanyId, auction: AuctionId) returns (err: Option<Error>)
      modifies this
      ensures Committed(BillingRules.ReleaseAuctionDeposit(old(State()), company, auction), err, State())
    {
      if company == NO_ID || auction == NO_ID { return Some(ErrInvalidIdentifier); }
      if company !in accounts { return Some(ErrAccountNotFound); }
      var acc := LoadAccount(company);
      var key := DepositKey(auction, company);
      if key !in deposits { return Some(ErrDepositNotFound); }
      var dep := LoadDeposit(key);
      if dep.status == RELEASED { return None; }
      if dep.status != HELD { return Some(ErrDepositNotHeld); }
      if Exists(ledger, ReleaseKey(key)) { return None; }
      err := acc.Release(dep.amount);
      if err.Some? { return; }
      dep.MarkReleased();
      SaveDeposit(dep);
      SaveAccount(acc);
      AppendLine(ReleaseKey(key), dep.amount);
    }

    // One turn of the loop below, on the row as it was when the auction's deposits were listed.
    method ReleaseUnlessCandidate(auction: AuctionId, candidates: set<CompanyId>, company: CompanyId, row: DepositRow) returns (err: Option<Error>)
      requires DepositKey(auction, company) in deposits && deposits[DepositKey(auction, company)] == row
      modifies this
      ensures forall cs | (forall c :: c in cs <==> c in candidates) ::
                Committed(BillingRules.ReleaseUnlessCandidate(old(State()), auction, cs, company), err, State())
      ensures deposits.Keys == old(deposits.Keys)
      ensures forall k | k in deposits && k != DepositKey(auction, company) :: deposits[k] == old(deposits)[k]
    {
      var key := DepositKey(auction, company);
      var dep := new AuctionDeposit(key, row);
      if company in candidates { return None; }
      if dep.status != HELD { return None; }
      if Exists(ledger, ReleaseKey(key)) { return None; }
      if company !in accounts { return Some(ErrAccountNotFound); }
      var acc := LoadAccount(company);
      err := acc.Release(dep.amount);
      if err.Some? { return; }
      dep.MarkReleased();
      SaveDeposit(dep);
      SaveAccount(acc);
      AppendLine(ReleaseKey(key), dep.amount);
    }

    method ReleaseAuctionDepositsExceptCandidates(auction: AuctionId, candidateIDs: seq<CompanyId>) returns (err: Option<Error>)
      modifies this
      ensures Committed(BillingRules.ReleaseAuctionDepositsExceptCandidates(old(State()), auction, candidateIDs), err, State())
    {
      if auction == NO_ID { return Some(ErrInvalidIdentifier); }
      for i := 0 to |candidateIDs|
        invariant NO_ID !in candidateIDs[..i]
      {
        if candidateIDs[i] == NO_ID { return Some(ErrInvalidIdentifier); }
      }
      assert candidateIDs[..|candidateIDs|] == candidateIDs;

      var candidates: set<CompanyId> := {};
      for i := 0 to |candidateIDs|
        invariant forall c :: c in candidates <==> c in candidateIDs[..i]
      {
        candidates := candidates + {candidateIDs[i]};
      }

      err := ReleaseListed(auction, candidateIDs, candidates);
    }

    // The loop over the deposits listed for the auction.
    method ReleaseListed(auction: AuctionId, ghost candidateIDs: seq<CompanyId>, candidates: set<CompanyId>) returns (err: Option<Error>)
      requires forall c :: c in candidates <==> c in candidateIDs
      modifies this
      ensures Committed(BillingRules.ReleaseAllUnlessCandidate(old(State()), auction, candidateIDs, ListByAuction(old(deposits), auction)),
                        err, State())
    {
      hide Exists, Append, BillingRules.ReleaseUnlessCandidate, BillingRules.ReleaseAllUnlessCandidate;
      var listed := deposits;
      var companies := ListByAuction(listed, auction);
      hide ListByAuction;
      ghost var b := State();
      ReleaseNothing(b, auction, candidateIDs, companies);
      for i := 0 to |companies|
        invariant BillingRules.ReleaseAllUnlessCandidate(b, auction, candidateIDs, companies[..i]) == Ok(State())
        invariant deposits.Keys == listed.Keys
        invariant forall j | i <= j < |companies| :: deposits[DepositKey(auction, companies[j])] == listed[DepositKey(auction, companies[j])]
      {
        ReleaseNext(b, auction, candidateIDs, companies, i);
        assert forall j | i < j < |companies| :: DepositKey(auction, companies[j]) != DepositKey(auction, companies[i]);
        err := ReleaseUnlessCandidate(auction, candidates, companies[i], listed[DepositKey(auction, companies[i])]);
        if err.Some? {
          ReleaseStops(b, auction, candidateIDs, companies, i + 1, err.value);
          return;
        }
      }
      assert companies[..|companies|] == companies;
      return None;
    }

    // ---------- settlement of the winner's deposit ----------

    method SettlementAlreadyRecorded(key: DepositKey) returns (done: bool)
      ensures done == SettlementRecorded(ledger, key)
    {
      var checks := [SettleFeeKey(key), SettleReleaseKey(key, Remainder), SettleReleaseKey(key, FullRelease), SettleReleaseKey(key, FeeZero)];
      for i := 0 to |checks|
        invariant forall j :: 0 <= j < i ==> !Exists(ledger, checks[j])
      {
        if Exists(ledger, checks[i]) { return true; }
      }
      assert !Exists(ledger, checks[0]) && !Exists(ledger, checks[1]) && !Exists(ledger, checks[2]) && !Exists(ledger, checks[3]);
      return false;
    }

    method SettleWinnerDeposit(auction: AuctionId, company: CompanyId, goods: int, feePaid: int) returns (err: Option<Error>)
      modifies this
      ensures Committed(BillingRules.SettleWinnerDeposit(old(State()), auction, company, goods, feePaid), err, State())
    {
      hide Exists, PlatformFee, SettlementRecorded, Append;
      if auction == NO_ID || company == NO_ID { return Some(ErrInvalidIdentifier); }
      if goods <= 0 { return Some(ErrInvalidAmount); }
      var key := DepositKey(auction, company);
      if key !in deposits { return Some(ErrDepositNotFound); }
      var dep := LoadDeposit(key);
      if dep.status != HELD { return None; }
      var fee := PlatformFee(goods);
      var expectedDue := fee - dep.amount;
      if expectedDue < 0 { expectedDue := 0; }
      if feePaid != expectedDue { return Some(ErrPlatformFeeDueMismatch); }
      var done := SettlementAlreadyRecorded(key);
      if done { return None; }
      if company !in accounts { return Some(ErrAccountNotFound); }
      var acc := LoadAccount(company);
      if fee <= 0 {
        err := acc.Release(dep.amount);
        if err.Some? { return; }
        dep.MarkReleased();
        SaveDeposit(dep);
        SaveAccount(acc);
        AppendLine(SettleReleaseKey(key, FeeZero), dep.amount);
        return;
      }
      var capture := dep.amount;
      if fee < capture { capture := fee; }
      var release := dep.amount - capture;
      if capture > 0 && release > 0 {
        err := acc.Capture(capture);
        if err.Some? { return; }
        err := acc.Release(release);
        if err.Some? { return; }
        dep.MarkSettled();
        SaveDeposit(dep);
        SaveAccount(acc);
        AppendLine(SettleFeeKey(key), capture);
        AppendLine(SettleReleaseKey(key, Remainder), release);
        return;
      }
      if capture > 0 && release == 0 {
        err := acc.Capture(capture);
        if err.Some? { return; }
        dep.MarkCaptured();
        SaveDeposit(dep);
        SaveAccount(acc);
        AppendLine(SettleFeeKey(key), capture);
        return;
      }
      // Keeping nothing of a positive fee means the deposit is zero, and Release refuses to give back zero:
      // the code that would write the FullRelease line is never reached.
      err := acc.Release(release);
    }

    method CapturePlatformFeeFromDeposit(company: CompanyId, auction: AuctionId, finalPrice: int) returns (err: Option<Error>)
      modifies this
      ensures Committed(BillingRules.CapturePlatformFeeFromDeposit(old(State()), company, auction, finalPrice), err, State())
    {
      hide Exists, PlatformFee, Append;
      if company == NO_ID || auction == NO_ID { return Some(ErrInvalidIdentifier); }
      if finalPrice < 0 { return Some(ErrInvalidAmount); }
      var key := DepositKey(auction, company);
      if Exists(ledger, FeeLineKey(key)) || Exists(ledger, FeeZeroKey(key)) { return None; }
      if company !in accounts { return Some(ErrAccountNotFound); }
      var acc := LoadAccount(company);
      if key !in deposits { return Some(ErrDepositNotFound); }
      var dep := LoadDeposit(key);
      if dep.status != HELD { return Some(ErrDepositNotHeld); }
      var fee := PlatformFee(finalPrice);
      if fee <= 0 {
        err := acc.Release(dep.amount);
        if err.Some? { return; }
        dep.MarkReleased();
        SaveDeposit(dep);
        SaveAccount(acc);
        AppendLine(FeeZeroKey(key), dep.amount);
        return;
      }
      if dep.amount > fee {
        var remainder := dep.amount - fee;
        err := acc.Capture(fee);
        if err.Some? { return; }
        err := acc.Release(remainder);
        if err.Some? { return; }
        dep.MarkSettled();
        SaveDeposit(dep);
        SaveAccount(acc);
        AppendLine(FeeLineKey(key), fee);
        AppendLine(FeeRemainderKey(key), remainder);
        return;
      }
      err := acc.Capture(dep.amount);
      if err.Some? { return; }
      dep.MarkCaptured();
      SaveDeposit(dep);
      SaveAccount(acc);
      AppendLine(FeeLineKey(key), dep.amount);
      if dep.amount < fee {
        AppendLine(FeeDueKey(key), fee - dep.amount);
      }
    }

    // ---------- invoices ----------

    method CreateDealInvoice(cmd: InvoiceCommand, now: Time, providerAnswers: bool) returns (err: Option<Error>)
      modifies this
      ensures Committed(BillingRules.CreateDealInvoice(old(State()), cmd, now, providerAnswers), err, State())
    {
      hide PlatformFee, NewDealInvoice;
      if cmd.deal == NO_ID || cmd.buyer == NO_ID || cmd.seller == NO_ID { return Some(ErrInvalidIdentifier); }
      if cmd.buyer == cmd.seller { return Some(ErrInvalidDealInvoice); }
      if cmd.goods <= 0 { return Some(ErrInvalidAmount); }
      if cmd.deal in invoices { return None; }
      var held: int := 0;
      if cmd.auction != NO_ID {
        var key := DepositKey(cmd.auction, cmd.buyer);
        if key !in deposits { return Some(ErrNilDereference); }
        if deposits[key].status == HELD {
          held := deposits[key].amount;
        }
      }
      var feeDue := PlatformFee(cmd.goods) - held;
      if feeDue < 0 { feeDue := 0; }
      var due := cmd.dueAt;
      if due == ZERO_TIME { due := now + 24 * HOUR; }
      if due < now { due := now + 24 * HOUR; }
      assert due == EffectiveDue(cmd.dueAt, now);
      hide EffectiveDue;
      var created := NewDealInvoice(cmd.deal, cmd.auction, cmd.buyer, cmd.seller, cmd.goods, feeDue, due, now);
      err := created.Failure();
      if err.Some? { return; }
      var invoice := new DealInvoice(created.value);
      invoices := invoices[cmd.deal := invoice.Value()];
      if !providerAnswers { return Some(ErrPaymentProvider); }
      err := invoice.AttachProvider();
      if err.Some? { return; }
      invoices := invoices[cmd.deal := invoice.Value()];
    }

    method ConfirmDealInvoicePaid(deal: DealId) returns (err: Option<Error>)
      modifies this
      ensures Committed(BillingRules.ConfirmDealInvoicePaid(old(State()), deal), err, State())
    {
      if deal == NO_ID { return Some(ErrInvalidIdentifier); }
      if deal !in invoices { return Some(ErrDealInvoiceNotFound); }
      var invoice := new DealInvoice(invoices[deal]);
      if invoice.status in {InvoiceExpired, InvoiceCancelled, InvoiceFailed} { return Some(ErrInvoiceNotPayable); }
      var alreadyPaid := invoice.status == InvoicePaid;
      err := invoice.MarkPaidIdempotent(invoice.row.total);
      if err.Some? || alreadyPaid { return; }
      invoices := invoices[deal := invoice.Value()];
      var row := invoice.row;
      outbox := outbox + [DealInvoicePaid(row.deal, row.auction, row.buyer, row.goods, row.feeDue, row.total)];
    }

    method ExpireDealInvoice(deal: DealId, now: Time) returns (err: Option<Error>)
      modifies this
      ensures Committed(BillingRules.ExpireDealInvoice(old(State()), deal, now), err, State())
    {
      if deal == NO_ID { return Some(ErrInvalidIdentifier); }
      if deal !in invoices { return Some(ErrDealInvoiceNotFound); }
      var invoice := new DealInvoice(invoices[deal]);
      if invoice.status in {InvoicePaid, InvoiceExpired} { return None; }
      if invoice.status != InvoicePaymentPending { return Some(ErrInvoiceNotExpirable); }
      if invoice.row.dueAt > now { return Some(ErrInvoiceNotExpired); }
      err := invoice.MarkExpired();
      if err.Some? { return; }
      invoices := invoices[deal := invoice.Value()];
      var row := invoice.row;
      outbox := outbox + [DealInvoiceExpired(row.deal, row.auction, row.buyer, row.total)];
    }

    // ---------- payouts ----------

    method CreateSellerPayout(cmd: PayoutCommand) returns (err: Option<Error>)
      modifies this
      ensures Committed(BillingRules.CreateSellerPayout(old(State()), cmd), err, State())
    {
      if cmd.deal == NO_ID || cmd.auction == NO_ID || cmd.buyer == NO_ID { return Some(ErrInvalidIdentifier); }
      if cmd.goods <= 0 { return Some(ErrInvalidAmount); }
      if cmd.deal in payouts { return None; }
      if cmd.deal !in invoices { return Some(ErrDealInvoiceNotFound); }
      var invoice := invoices[cmd.deal];
      if invoice.status != InvoicePaid { return Some(ErrInvoiceNotPayable); }
      if invoice.auction != cmd.auction { return Some(ErrSellerPayoutInvoiceMismatch); }
      if invoice.buyer != cmd.buyer { return Some(ErrSellerPayoutInvoiceMismatch); }
      if invoice.goods != cmd.goods { return Some(ErrSellerPayoutInvoiceMismatch); }
      if invoice.feeDue != cmd.feeDue { return Some(ErrSellerPayoutInvoiceMismatch); }
      if invoice.buyer == invoice.seller { return Some(ErrInvalidSellerPayout); }
      var payout := NewSellerPayout(invoice.deal, invoice.auction, invoice.seller, invoice.buyer, invoice.goods);
      err := payout.Failure();
      if err.Some? { return; }
      payouts := payouts[cmd.deal := payout.value];
      return None;
    }

    method MarkSellerPayoutReady(deal: DealId) returns (err: Option<Error>)
      modifies this
      ensures Committed(BillingRules.MarkSellerPayoutReady(old(State()), deal), err, State())
    {
      if deal == NO_ID { return Some(ErrInvalidIdentifier); }
      if deal !in payouts { return Some(ErrSellerPayoutNotFound); }
      var payout := new SellerPayout(payouts[deal]);
      match payout.status {
        case PayoutReady => return None;
        case PayoutPaid => return None;
        case PayoutPending =>
          err := payout.MarkReady();
          if err.Some? { return; }
          payouts := payouts[deal := payout.Value()];
        case _ => return Some(ErrSellerPayoutWrongStatus);
      }
    }

    method MarkSellerPayoutFailed(deal: DealId) returns (err: Option<Error>)
      modifies this
      ensures Committed(BillingRules.MarkSellerPayoutFailed(old(State()), deal), err, State())
    {
      if deal == NO_ID { return Some(ErrInvalidIdentifier); }
      if deal !in payouts { return Some(ErrSellerPayoutNotFound); }
      var payout := new SellerPayout(payouts[deal]);
      err := payout.MarkFailed();
      if err.Some? { return; }
      payouts := payouts[deal := payout.Value()];
    }

    method MarkSellerPayoutPaid(deal: DealId) returns (err: Option<Error>)
      modifies this
      ensures Committed(BillingRules.MarkSellerPayoutPaid(old(State()), deal), err, State())
    {
      hide Exists;
      if deal == NO_ID { return Some(ErrInvalidIdentifier); }
      if deal !in payouts { return Some(ErrSellerPayoutNotFound); }
      var payout := new SellerPayout(payouts[deal]);
      var row := payout.row;
      var credited := Exists(ledger, CreditKey(row));
      if payout.status == PayoutPaid {
        if credited { return None; }
        err := CreateAccount(row.seller);
        if err.Some? { return; }
        AppendLine(CreditKey(row), row.amount);
        return;
      }
      if payout.status != PayoutReady { return Some(ErrSellerPayoutWrongStatus); }
      if credited {
        err := payout.MarkPaid();
        if err.Some? { return; }
        payouts := payouts[deal := payout.Value()];
        return;
      }
      err := CreateAccount(row.seller);
      if err.Some? { return; }
      var acc := LoadAccount(row.seller);
      err := acc.Deposit(row.amount);
      if err.Some? { return; }
      err := payout.MarkPaid();
      if err.Some? { return; }
      SaveAccount(acc);
      payouts := payouts[deal := payout.Value()];
      if !Exists(ledger, CreditKey(row)) {
        AppendLine(CreditKey(row), row.amount);
      }
    }
  }

  lemma ReleaseNothing(b: Billing, auction: AuctionId, candidates: seq<CompanyId>, companies: seq<CompanyId>)
    ensures ReleaseAllUnlessCandidate(b, auction, candidates, companies[..0]) == Ok(b)
  {
  }

  lemma ReleaseNext(b: Billing, auction: AuctionId, candidates: seq<CompanyId>, companies: seq<CompanyId>, i: nat)
    requires i < |companies| && ReleaseAllUnlessCandidate(b, auction, candidates, companies[..i]).Ok?
    ensures ReleaseAllUnlessCandidate(b, auction, candidates, companies[..i + 1])
         == ReleaseUnlessCandidate(ReleaseAllUnlessCandidate(b, auction, candidates, companies[..i]).value,
                                                auction, candidates, companies[i])
  {
    assert companies[..i + 1][..i] == companies[..i];
    hide ReleaseUnlessCandidate;
  }

  // An error in the release loop is the error of the whole run.
  lemma {:induction false} ReleaseStops(b: Billing, auction: AuctionId, candidates: seq<CompanyId>, companies: seq<CompanyId>, i: nat, e: Error)
    requires i <= |companies| && ReleaseAllUnlessCandidate(b, auction, candidates, companies[..i]) == Err(e)
    ensures ReleaseAllUnlessCandidate(b, auction, candidates, companies) == Err(e)
  {
    if i == |companies| {
      assert companies[..i] == companies;
    } else {
      var rest := companies[..|companies| - 1];
      assert rest[..i] == companies[..i];
      ReleaseStops(b, auction, candidates, rest, i, e);
    }
  }
}
