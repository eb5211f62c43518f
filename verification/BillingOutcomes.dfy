/** Settlement, invoices and payouts: what each transaction leaves behind, and that it keeps the billing invariant. */
module BillingOutcomes {
  import opened Common
  import opened Money
  import opened Wallet
  import opened Ledger
  import opened BillingRules
  import opened BillingInvariants

  // ---------- the winner's deposit ----------

  function SplitStatus(captured: nat, amount: nat): DepositStatus {
    if captured == 0 then RELEASED else if captured == amount then CAPTURED else SETTLED
  }

  // b' is b with deposit k ended by keeping `captured` of it and giving the rest back, on every meter of the ledger.
  ghost predicate DepositSplit(b: Billing, b': Billing, k: DepositKey, captured: nat)
    requires k in b.deposits && k.company in b.accounts
  {
    var amount := b.deposits[k].amount;
    && captured <= amount <= b.accounts[k.company].held
    && b'.deposits == b.deposits[k := DepositRow(amount, SplitStatus(captured, amount))]
    && b'.accounts == b.accounts[k.company := Balance(b.accounts[k.company].available + amount - captured,
                                                      b.accounts[k.company].held - amount)]
    && Sum(CapturedFor(k.auction, k.company), b'.ledger) == captured
    && Sum(ReleasedFor(k.auction, k.company), b'.ledger) == amount - captured
    && Splits(b.ledger, b'.ledger, k, amount - captured, captured)
  }

  lemma OneLineSplitDone(b: Billing, k: DepositKey, e: Entry, balance: Balance)
    requires BillingInv(b) && k in b.deposits && b.deposits[k].status == HELD
    requires e.key in EndingKeys(k) && e.amount == b.deposits[k].amount && k.company in b.accounts
    requires balance == Balance(b.accounts[k.company].available + (if e.key.kind == BidDepositReleased then e.amount else 0),
                                if b.accounts[k.company].held >= e.amount then b.accounts[k.company].held - e.amount else 0)
    ensures var captured := if e.key.kind == BidDepositReleased then 0 else e.amount;
            var b' := Post(b, k, balance, SplitStatus(captured, e.amount), Append(b.ledger, e));
            DepositSplit(b, b', k, captured) && BillingInv(b') && BillingAdvances(b, b')
  {
    hide Sum, HeldSum;
    var captured := if e.key.kind == BidDepositReleased then 0 else e.amount;
    HeldIsCovered(b, k);
    OneLineSplits(b, k, e);
    assert DepositAudited(b, k);
    EndDepositKeeps(b, k, e.amount - captured, captured, SplitStatus(captured, e.amount), balance, Append(b.ledger, e));
  }

  lemma TwoLineSplitDone(b: Billing, k: DepositKey, fee: Entry, rest: Entry, balance: Balance)
    requires BillingInv(b) && k in b.deposits && b.deposits[k].status == HELD && k.company in b.accounts
    requires fee.key in EndingKeys(k) && fee.key.kind == PlatformFeeCaptured && fee.amount > 0
    requires rest.key in EndingKeys(k) && rest.key.kind == BidDepositReleased && rest.amount > 0
    requires fee.amount + rest.amount == b.deposits[k].amount
    requires balance == Balance(b.accounts[k.company].available + rest.amount,
                                if b.accounts[k.company].held >= b.deposits[k].amount
                                then b.accounts[k.company].held - b.deposits[k].amount else 0)
    ensures var b' := Post(b, k, balance, SETTLED, Append(Append(b.ledger, fee), rest));
            DepositSplit(b, b', k, fee.amount) && BillingInv(b') && BillingAdvances(b, b')
  {
    hide Sum, HeldSum;
    HeldIsCovered(b, k);
    TwoLinesSplit(b, k, fee, rest);
    assert DepositAudited(b, k);
    EndDepositKeeps(b, k, rest.amount, fee.amount, SETTLED, balance, Append(Append(b.ledger, fee), rest));
  }

  // Settling a HELD deposit succeeds exactly when the invoice charged the part of the fee the deposit does not cover.
  // It then keeps min(fee, deposit) and gives the rest back; the branch that keeps nothing of a positive fee is dead.
  lemma SettleOutcome(b: Billing, auction: AuctionId, company: CompanyId, goods: int, feePaid: int)
    requires BillingInv(b) && goods > 0
    requires DepositKey(auction, company) in b.deposits && b.deposits[DepositKey(auction, company)].status == HELD
    ensures var k := DepositKey(auction, company);
            var amount := b.deposits[k].amount;
            var r := SettleWinnerDeposit(b, auction, company, goods, feePaid);
            && (r.Ok? <==> feePaid == Money.FeeDue(goods, amount))
            && (r.Err? ==> r.error == ErrPlatformFeeDueMismatch)
            && (r.Ok? ==>
                  && company in b.accounts
                  && DepositSplit(b, r.value, k, Min(PlatformFee(goods), amount))
                  && SamePapers(b, r.value) && BillingInv(r.value) && BillingAdvances(b, r.value)
                  && !Exists(r.value.ledger, SettleReleaseKey(k, FullRelease)))
  {
    hide Sum, HeldSum, BillingInv, BillingAdvances;
    var k := DepositKey(auction, company);
    var amount := b.deposits[k].amount;
    var fee := PlatformFee(goods);
    HeldIsCovered(b, k);
    HeldHasNoEndingLine(b, k);
    if feePaid == Money.FeeDue(goods, amount) {
      var before := b.accounts[company];
      if fee == 0 {
        var e := Entry(SettleReleaseKey(k, FeeZero), amount);
        SumAppend(b.ledger, e);
        OneLineSplitDone(b, k, e, before.Release(amount).value);
      } else if fee < amount {
        var e1, e2 := Entry(SettleFeeKey(k), fee), Entry(SettleReleaseKey(k, Remainder), amount - fee);
        SumAppend(b.ledger, e1);
        SumAppend(Append(b.ledger, e1), e2);
        TwoLineSplitDone(b, k, e1, e2, before.Capture(fee).value.Release(amount - fee).value);
      } else {
        var e := Entry(SettleFeeKey(k), amount);
        SumAppend(b.ledger, e);
        OneLineSplitDone(b, k, e, before.Capture(amount).value);
      }
    }
  }

  // The second implementation of the fee split always succeeds on a HELD deposit and makes the same split.
  lemma CaptureFeeOutcome(b: Billing, auction: AuctionId, company: CompanyId, finalPrice: int)
    requires BillingInv(b) && finalPrice >= 0
    requires DepositKey(auction, company) in b.deposits && b.deposits[DepositKey(auction, company)].status == HELD
    ensures var k := DepositKey(auction, company);
            var r := CapturePlatformFeeFromDeposit(b, company, auction, finalPrice);
            && company in b.accounts
            && r.Ok? && DepositSplit(b, r.value, k, Min(PlatformFee(finalPrice), b.deposits[k].amount))
            && SamePapers(b, r.value) && BillingInv(r.value) && BillingAdvances(b, r.value)
  {
    hide Sum, HeldSum, BillingInv, BillingAdvances, DepositSplit, Exists, PlatformFee;
    var k := DepositKey(auction, company);
    var amount := b.deposits[k].amount;
    var fee := PlatformFee(finalPrice);
    HeldIsCovered(b, k);
    HeldHasNoEndingLine(b, k);
    var before := b.accounts[company];
    var first := Entry(FeeLineKey(k), Min(fee, amount));
    if fee == 0 {
      OneLineSplitDone(b, k, Entry(FeeZeroKey(k), amount), before.Release(amount).value);
    } else if fee < amount {
      TwoLineSplitDone(b, k, first, Entry(FeeRemainderKey(k), amount - fee), before.Capture(fee).value.Release(amount - fee).value);
    } else {
      OneLineSplitDone(b, k, first, before.Capture(amount).value);
      if fee > amount {
        var kept := Post(b, k, before.Capture(amount).value, CAPTURED, Append(b.ledger, first));
        DueLineKeepsSplit(b, kept, k, amount, Entry(FeeDueKey(k), fee - amount));
      }
    }
  }

  lemma DueLineKeepsSplit(b: Billing, kept: Billing, k: DepositKey, captured: nat, e: Entry)
    requires k in b.deposits && k.company in b.accounts && DepositSplit(b, kept, k, captured)
    requires BillingInv(kept) && BillingAdvances(b, kept)
    requires e.key.kind == PlatformFeeDue && e.key.reference.DepositRef? && e.amount > 0
    ensures var b' := kept.(ledger := Append(kept.ledger, e));
            DepositSplit(b, b', k, captured) && BillingInv(b') && BillingAdvances(b, b')
  {
    hide Sum, HeldSum;
    var b' := kept.(ledger := Append(kept.ledger, e));
    DueLineKeeps(kept, e);
    BillingAdvancesTransitive(b, kept, b');
    assert AllPositive(b'.ledger);
  }

  // A line that records a fee still due moves no meter.
  lemma DueLineKeeps(b: Billing, e: Entry)
    requires BillingInv(b) && e.key.kind == PlatformFeeDue && e.key.reference.DepositRef? && e.amount > 0
    ensures var b' := b.(ledger := Append(b.ledger, e));
            BillingInv(b') && BillingAdvances(b, b') && forall m :: Sum(m, b'.ledger) == Sum(m, b.ledger)
  {
    hide Sum, HeldSum;
    var b' := b.(ledger := Append(b.ledger, e));
    if !Exists(b.ledger, e.key) {
      SumAppend(b.ledger, e);
    }
    assert forall c :: BalanceOf(b', c) == BalanceOf(b, c);
    OtherRowsKept(b, b');
  }

  // The two implementations agree: same balances, same deposits, and the same total on every meter.
  lemma FeeSplitsAgree(b: Billing, auction: AuctionId, company: CompanyId, goods: int)
    requires BillingInv(b) && goods > 0
    requires DepositKey(auction, company) in b.deposits && b.deposits[DepositKey(auction, company)].status == HELD
    ensures var due := Money.FeeDue(goods, b.deposits[DepositKey(auction, company)].amount);
            var settled := SettleWinnerDeposit(b, auction, company, goods, due);
            var captured := CapturePlatformFeeFromDeposit(b, company, auction, goods);
            && settled.Ok? && captured.Ok?
            && settled.value.accounts == captured.value.accounts
            && settled.value.deposits == captured.value.deposits
            && forall m: Meter :: Sum(m, settled.value.ledger) == Sum(m, captured.value.ledger)
  {
    hide Sum, HeldSum;
    var due := Money.FeeDue(goods, b.deposits[DepositKey(auction, company)].amount);
    SettleOutcome(b, auction, company, goods, due);
    CaptureFeeOutcome(b, auction, company, goods);
  }

  // ---------- invoices ----------

  lemma CreateDealInvoiceKeeps(b: Billing, cmd: InvoiceCommand, now: Time, providerAnswers: bool)
    requires BillingInv(b) && CreateDealInvoice(b, cmd, now, providerAnswers).Ok?
    ensures var b' := CreateDealInvoice(b, cmd, now, providerAnswers).value;
            && BillingInv(b') && BillingAdvances(b, b')
            && b' == b.(invoices := b'.invoices)
            && cmd.deal in b'.invoices
            && (cmd.deal in b.invoices ==> b' == b)
            && (cmd.deal !in b.invoices ==>
                  && cmd.buyer != cmd.seller
                  && b'.invoices == b.invoices[cmd.deal := b'.invoices[cmd.deal]]
                  && var i := b'.invoices[cmd.deal];
                     && i.auction == cmd.auction && i.buyer == cmd.buyer && i.seller == cmd.seller && i.goods == cmd.goods
                     && i.status == InvoicePaymentPending
                     && (cmd.auction != NO_ID ==>
                           && DepositKey(cmd.auction, cmd.buyer) in b.deposits
                           && var d := b.deposits[DepositKey(cmd.auction, cmd.buyer)];
                              i.feeDue == Money.FeeDue(cmd.goods, if d.status == HELD then d.amount else 0)))
  {
    hide Sum, HeldSum;
    var b' := CreateDealInvoice(b, cmd, now, providerAnswers).value;
    assert forall c :: BalanceOf(b', c) == BalanceOf(b, c);
    forall k: DepositKey
      ensures DepositAudited(b', k)
    {
      assert DepositAudited(b, k);
    }
    forall d: DealId
      ensures PayoutAudited(b', d)
    {
      assert PayoutAudited(b, d);
    }
    assert forall e | e in b'.outbox :: EventBacked(b, e) && EventBacked(b', e);
  }

  // An update of one invoice's status that may announce itself in the outbox.
  lemma InvoiceStatusKeeps(b: Billing, d: DealId, status: InvoiceStatus, events: seq<BillingEvent>)
    requires BillingInv(b) && d in b.invoices && b.invoices[d].status == InvoicePaymentPending
    requires status in {InvoicePaid, InvoiceExpired}
    requires forall e | e in events :: EventBacked(b.(invoices := b.invoices[d := b.invoices[d].(status := status)]), e)
    ensures var b' := b.(invoices := b.invoices[d := b.invoices[d].(status := status)], outbox := b.outbox + events);
            BillingInv(b') && BillingAdvances(b, b')
  {
    hide Sum, HeldSum;
    var b' := b.(invoices := b.invoices[d := b.invoices[d].(status := status)], outbox := b.outbox + events);
    assert forall c :: BalanceOf(b', c) == BalanceOf(b, c);
    forall k: DepositKey
      ensures DepositAudited(b', k)
    {
      assert DepositAudited(b, k);
    }
    forall q: DealId
      ensures PayoutAudited(b', q)
    {
      assert PayoutAudited(b, q);
    }
    assert forall e | e in b.outbox :: EventBacked(b, e) && EventBacked(b', e);
  }

  lemma ConfirmDealInvoicePaidKeeps(b: Billing, d: DealId)
    requires BillingInv(b) && ConfirmDealInvoicePaid(b, d).Ok?
    ensures BillingInv(ConfirmDealInvoicePaid(b, d).value) && BillingAdvances(b, ConfirmDealInvoicePaid(b, d).value)
  {
    var i := b.invoices[d];
    if i.status == InvoicePaymentPending {
      InvoiceStatusKeeps(b, d, InvoicePaid, [DealInvoicePaid(i.deal, i.auction, i.buyer, i.goods, i.feeDue, i.total)]);
    }
  }

  lemma ExpireDealInvoiceKeeps(b: Billing, d: DealId, now: Time)
    requires BillingInv(b) && ExpireDealInvoice(b, d, now).Ok?
    ensures BillingInv(ExpireDealInvoice(b, d, now).value) && BillingAdvances(b, ExpireDealInvoice(b, d, now).value)
  {
    var i := b.invoices[d];
    if i.status == InvoicePaymentPending {
      InvoiceStatusKeeps(b, d, InvoiceExpired, [DealInvoiceExpired(i.deal, i.auction, i.buyer, i.total)]);
    }
  }

  // An invoice is never both announced as paid and announced as expired.
  lemma PaidAndExpiredExclude(b: Billing, paid: BillingEvent, expired: BillingEvent)
    requires BillingInv(b) && paid in b.outbox && expired in b.outbox
    requires paid.DealInvoicePaid? && expired.DealInvoiceExpired?
    ensures paid.deal != expired.deal
  {
    assert EventBacked(b, paid) && EventBacked(b, expired);
  }

  // ---------- payouts ----------

  lemma CreateSellerPayoutKeeps(b: Billing, cmd: PayoutCommand)
    requires BillingInv(b) && CreateSellerPayout(b, cmd).Ok?
    ensures var b' := CreateSellerPayout(b, cmd).value;
            && BillingInv(b') && BillingAdvances(b, b') && b' == b.(payouts := b'.payouts)
            && cmd.deal in b'.payouts
            && (cmd.deal in b.payouts ==> b' == b)
            && (cmd.deal !in b.payouts ==>
                  && b'.payouts == b.payouts[cmd.deal := b'.payouts[cmd.deal]]
                  && b'.payouts[cmd.deal].auction == cmd.auction && b'.payouts[cmd.deal].amount == cmd.goods
                  && b'.payouts[cmd.deal].status == PayoutPending)
  {
    hide Sum, HeldSum;
    var b' := CreateSellerPayout(b, cmd).value;
    assert forall c :: BalanceOf(b', c) == BalanceOf(b, c);
    forall k: DepositKey
      ensures DepositAudited(b', k)
    {
      assert DepositAudited(b, k);
    }
    forall d: DealId
      ensures PayoutAudited(b', d)
    {
      assert PayoutAudited(b, d);
    }
    assert forall e | e in b'.outbox :: EventBacked(b, e) && EventBacked(b', e);
  }

  // A change of payout status that credits nobody.
  lemma PayoutStatusKeeps(b: Billing, d: DealId, status: PayoutStatus)
    requires BillingInv(b) && d in b.payouts && b.payouts[d].status in {PayoutPending, PayoutReady}
    requires status in {PayoutReady, PayoutFailed}
    ensures var b' := b.(payouts := b.payouts[d := b.payouts[d].(status := status)]);
            BillingInv(b') && BillingAdvances(b, b')
  {
    hide Sum, HeldSum;
    var b' := b.(payouts := b.payouts[d := b.payouts[d].(status := status)]);
    assert forall c :: BalanceOf(b', c) == BalanceOf(b, c);
    forall k: DepositKey
      ensures DepositAudited(b', k)
    {
      assert DepositAudited(b, k);
    }
    forall q: DealId
      ensures PayoutAudited(b', q)
    {
      assert PayoutAudited(b, q);
    }
    assert forall e | e in b'.outbox :: EventBacked(b, e) && EventBacked(b', e);
  }

  lemma MarkSellerPayoutReadyKeeps(b: Billing, d: DealId)
    requires BillingInv(b) && MarkSellerPayoutReady(b, d).Ok?
    ensures BillingInv(MarkSellerPayoutReady(b, d).value) && BillingAdvances(b, MarkSellerPayoutReady(b, d).value)
  {
    if b.payouts[d].status == PayoutPending {
      PayoutStatusKeeps(b, d, PayoutReady);
    }
  }

  lemma MarkSellerPayoutFailedKeeps(b: Billing, d: DealId)
    requires BillingInv(b) && MarkSellerPayoutFailed(b, d).Ok?
    ensures BillingInv(MarkSellerPayoutFailed(b, d).value) && BillingAdvances(b, MarkSellerPayoutFailed(b, d).value)
  {
    assert PayoutAudited(b, d);
    if b.payouts[d].status in {PayoutPending, PayoutReady} {
      PayoutStatusKeeps(b, d, PayoutFailed);
    } else {
      assert MarkSellerPayoutFailed(b, d).value == b;
    }
  }

  // The ledger shows a credit for a payout exactly when the payout is PAID.
  lemma PaidMeansCredited(b: Billing, d: DealId)
    requires BillingInv(b) && d in b.payouts
    ensures b.payouts[d].status == PayoutPaid <==> Exists(b.ledger, CreditKey(b.payouts[d]))
  {
    hide Sum, HeldSum;
    assert PayoutAudited(b, d);
    var p := b.payouts[d];
    if p.status == PayoutPaid {
      NonzeroMeansLine(CreditsTo(d, p.seller), b.ledger);
    } else {
      NoLineWithKey(CreditLines(d), b.ledger, CreditKey(p));
    }
  }

  function Credited(b: Billing, p: PayoutRow): Balance
    requires p.amount > 0
  {
    BalanceOf(b, p.seller).(available := BalanceOf(b, p.seller).available + p.amount)
  }

  // Crediting the seller: from READY the seller's balance grows by exactly the amount, with one ledger line;
  // once PAID nothing happens any more. Neither repair branch of the code is ever taken.
  lemma MarkSellerPayoutPaidOutcome(b: Billing, d: DealId)
    requires BillingInv(b) && d in b.payouts
    ensures var r := MarkSellerPayoutPaid(b, d);
            var p := b.payouts[d];
            && (r.Ok? <==> p.status in {PayoutReady, PayoutPaid})
            && (p.status == PayoutPaid ==> r == Ok(b))
            && (r.Ok? ==>
                  && BillingInv(r.value) && BillingAdvances(b, r.value)
                  && r.value.deposits == b.deposits && r.value.invoices == b.invoices && r.value.outbox == b.outbox
                  && r.value.payouts == b.payouts[d := p.(status := PayoutPaid)])
            && (p.status == PayoutReady ==>
                  && p.amount > 0
                  && r.value.accounts == b.accounts[p.seller := Credited(b, p)]
                  && r.value.ledger == b.ledger + [Entry(CreditKey(p), p.amount)])
  {
    hide Sum, HeldSum;
    PaidMeansCredited(b, d);
    assert PayoutAudited(b, d) && InvoiceWellFormed(d, b.invoices[d]);
    var p := b.payouts[d];
    if p.status == PayoutReady {
      var line := Entry(CreditKey(p), p.amount);
      SumAppend(b.ledger, line);
      CreditPayoutKeeps(b, d, b.ledger + [line]);
      var credited := b.(accounts := b.accounts[p.seller := Credited(b, p)],
                         payouts := b.payouts[d := p.(status := PayoutPaid)],
                         ledger := b.ledger + [line]);
      assert b.accounts[p.seller := Balance(0, 0)][p.seller := Credited(b, p)] == credited.accounts;
      assert MarkSellerPayoutPaid(b, d) == Ok(credited);
    }
  }

  // The effect on every meter of crediting payout p.
  function CreditReading(m: Meter, p: PayoutRow): int {
    match m
    case Available(c) => if c == p.seller then p.amount else 0
    case CreditedFor(d) => if d == p.deal then p.amount else 0
    case CreditLines(d) => if d == p.deal then 1 else 0
    case CreditsTo(d, c) => if d == p.deal && c == p.seller then 1 else 0
    case _ => 0
  }

  lemma CreditPayoutKeeps(b: Billing, d: DealId, ledger: seq<Entry>)
    requires BillingInv(b) && d in b.payouts && b.payouts[d].status == PayoutReady
    requires AllPositive(ledger)
    requires forall m: Meter :: Sum(m, ledger) == Sum(m, b.ledger) + CreditReading(m, b.payouts[d])
    ensures var p := b.payouts[d];
            p.amount > 0 &&
            var b' := b.(accounts := b.accounts[p.seller := Credited(b, p)],
                         payouts := b.payouts[d := p.(status := PayoutPaid)],
                         ledger := ledger);
            BillingInv(b') && BillingAdvances(b, b')
  {
    hide Sum, HeldSum, Reading;
    assert PayoutAudited(b, d) && InvoiceWellFormed(d, b.invoices[d]);
    var p := b.payouts[d];
    var b' := b.(accounts := b.accounts[p.seller := Credited(b, p)],
                 payouts := b.payouts[d := p.(status := PayoutPaid)],
                 ledger := ledger);
    assert Sum(CreditsTo(d, p.seller), b.ledger) == 0 by {
      CreditLinesCover(b.ledger, d, p.seller);
    }
    forall q: DealId
      ensures PayoutAudited(b', q)
    {
      assert PayoutAudited(b, q);
    }
    forall k: DepositKey
      ensures DepositAudited(b', k)
    {
      assert DepositAudited(b, k);
    }
    assert HoldsMatchDeposits(b') by {
      assert forall c: CompanyId :: BalanceOf(b', c).held == BalanceOf(b, c).held;
    }
    assert LedgerExplainsBalances(b') by {
      assert LedgerExplainsBalances(b);
    }
    assert InvoicesBacked(b') by {
      assert forall e | e in b'.outbox :: EventBacked(b, e) && EventBacked(b', e);
    }
  }

  lemma {:induction false} CreditLinesCover(ledger: seq<Entry>, d: DealId, seller: CompanyId)
    ensures 0 <= Sum(CreditsTo(d, seller), ledger) <= Sum(CreditLines(d), ledger)
  {
    if ledger != [] {
      CreditLinesCover(ledger[..|ledger| - 1], d, seller);
    }
  }

  // ---------- finalization ----------

  // b' is b with the auction settled: the winner's deposit split, every other HELD deposit of the auction given back,
  // deposits of other auctions untouched, and the seller owed the goods.
  ghost predicate AuctionSettled(b: Billing, b': Billing, cmd: PayoutCommand) {
    var winner := DepositKey(cmd.auction, cmd.buyer);
    && winner in b.deposits
    && var captured := Min(PlatformFee(cmd.goods), b.deposits[winner].amount);
    && b'.invoices == b.invoices && b'.outbox == b.outbox
    && b'.deposits.Keys == b.deposits.Keys
    && (forall k | k in b.deposits ::
          b'.deposits[k] ==
          if k == winner then DepositRow(b.deposits[k].amount, SplitStatus(captured, b.deposits[k].amount))
          else if k.auction == cmd.auction && b.deposits[k].status == HELD then b.deposits[k].(status := RELEASED)
          else b.deposits[k])
    && Sum(CapturedFor(cmd.auction, cmd.buyer), b'.ledger) == captured
    && Sum(ReleasedFor(cmd.auction, cmd.buyer), b'.ledger) == b.deposits[winner].amount - captured
    && cmd.deal in b'.payouts
    && b'.payouts == b.payouts[cmd.deal := b'.payouts[cmd.deal]]
    && b'.payouts[cmd.deal].auction == cmd.auction && b'.payouts[cmd.deal].amount == cmd.goods
    && b'.payouts[cmd.deal].status == PayoutPending
  }

  // The WinnerSelectionFinalized transaction, when the winner's deposit is still HELD and the paid invoice matches:
  // it succeeds, splits the winner's deposit, frees every other deposit of the auction and owes the seller.
  lemma FinalizeOutcome(b: Billing, cmd: PayoutCommand)
    requires BillingInv(b)
    requires cmd.deal in b.invoices && cmd.deal !in b.payouts
    requires var i := b.invoices[cmd.deal];
             i.status == InvoicePaid && i.auction == cmd.auction && i.buyer == cmd.buyer && i.goods == cmd.goods && i.feeDue == cmd.feeDue
    requires DepositKey(cmd.auction, cmd.buyer) in b.deposits && b.deposits[DepositKey(cmd.auction, cmd.buyer)].status == HELD
    requires cmd.feeDue == Money.FeeDue(cmd.goods, b.deposits[DepositKey(cmd.auction, cmd.buyer)].amount)
    ensures var r := FinalizeAuction(b, cmd);
            r.Ok? && BillingInv(r.value) && BillingAdvances(b, r.value) && AuctionSettled(b, r.value, cmd)
  {
    hide Sum, HeldSum, BillingAdvances, PlatformFee, Money.FeeDue, SettleWinnerDeposit, ReleaseAuctionDepositsExceptCandidates;
    var winner := DepositKey(cmd.auction, cmd.buyer);
    assert InvoiceWellFormed(cmd.deal, b.invoices[cmd.deal]);
    HeldIsCovered(b, winner);
    SettleOutcome(b, cmd.auction, cmd.buyer, cmd.goods, cmd.feeDue);
    var b1 := SettleWinnerDeposit(b, cmd.auction, cmd.buyer, cmd.goods, cmd.feeDue).value;
    ReleaseExceptOutcome(b1, cmd.auction, [cmd.buyer]);
    var b2 := ReleaseAuctionDepositsExceptCandidates(b1, cmd.auction, [cmd.buyer]).value;
    SettledKept(b1, b2, winner);
    CreateSellerPayoutKeeps(b2, cmd);
    var b3 := CreateSellerPayout(b2, cmd).value;
    BillingAdvancesTransitive(b, b1, b2);
    BillingAdvancesTransitive(b, b2, b3);
  }

  lemma SettledKept(b: Billing, b': Billing, k: DepositKey)
    requires BillingAdvances(b, b') && k in b.deposits && b.deposits[k].status != HELD
    ensures k in b'.deposits && b'.deposits[k] == b.deposits[k]
    ensures Sum(CapturedFor(k.auction, k.company), b'.ledger) == Sum(CapturedFor(k.auction, k.company), b.ledger)
    ensures Sum(ReleasedFor(k.auction, k.company), b'.ledger) == Sum(ReleasedFor(k.auction, k.company), b.ledger)
  {
    hide Sum;
    assert DepositAdvances(b, b', k);
  }
}
