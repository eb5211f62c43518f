/**
 When each billing operation is accepted, and exactly what it changes, told from the stored rows alone: every lemma holds
 in all states that keep the billing invariant, and for all arguments.
 */
module BillingAnswers {
  import opened Common
  import opened Wallet
  import opened Ledger
  import opened BillingRules
  import opened BillingInvariants
  import Money
  import BillingOutcomes

  // ---------- accounts and top-ups ----------

  // A new account is empty; one that exists keeps its balances.
  lemma CreateAccountIff(b: Billing, company: CompanyId)
    ensures CreateAccount(b, company).Ok? <==> company != NO_ID
    ensures company != NO_ID ==>
              CreateAccount(b, company).value
              == b.(accounts := b.accounts[company := if company in b.accounts then b.accounts[company] else Balance(0, 0)])
  {
    if company in b.accounts {
      assert b.accounts[company := b.accounts[company]] == b.accounts;
    }
  }

  lemma CreateTopUpIff(b: Billing, company: CompanyId, amount: int, payment: PaymentId)
    ensures var r := CreateTopUp(b, company, amount, payment);
            && (r.Ok? <==> company != NO_ID && amount > 0)
            && (r.Ok? ==>
                  r.value == b.(accounts := b.accounts[company := if company in b.accounts then b.accounts[company] else Balance(0, 0)],
                                topUps := b.topUps[payment := TopUpRow(company, amount, TopUpPending)]))
  {
    CreateAccountIff(b, company);
    hide CreateAccount;
  }

  // The provider confirms a stored top-up, for exactly its amount; its company is credited with it once.
  lemma ConfirmTopUpByProviderIff(b: Billing, payment: PaymentId, amount: int)
    requires BillingInv(b)
    ensures var r := ConfirmTopUpByProvider(b, payment, amount);
            && (r.Ok? <==> payment in b.topUps && (b.topUps[payment].status == TopUpSucceeded || b.topUps[payment].amount == amount))
            && (r.Ok? && b.topUps[payment].status == TopUpSucceeded ==> r.value == b)
            && (r.Ok? && b.topUps[payment].status == TopUpPending ==>
                  var row := b.topUps[payment];
                  var line := Entry(Key(row.company, ExternalPayment, PaymentRef(payment), TopUpConfirmed), amount);
                  && row.company in b.accounts
                  && r.value == b.(topUps := b.topUps[payment := row.(status := TopUpSucceeded)],
                                   processed := b.processed + {payment}, ledger := b.ledger + [line],
                                   accounts := b.accounts[row.company := Balance(b.accounts[row.company].available + amount,
                                                                                 b.accounts[row.company].held)]))
  {
    hide Sum, MoneyInv, ConfirmTopUp;
    if payment in b.topUps && b.topUps[payment].status == TopUpPending {
      ConfirmTopUpCredits(b, b.topUps[payment].company, amount, payment);
    }
  }

  // ---------- deposits ----------

  // Five percent of the start price, rounded down, and at least one.
  function DepositAsked(startPrice: nat): nat {
    if startPrice < 40 then 1 else startPrice * 5 / 100
  }

  lemma DepositIsAsked(startPrice: int)
    requires startPrice > 0
    ensures Money.DepositFromStartPrice(startPrice) == DepositAsked(startPrice)
  {
  }

  // A bidder's deposit is set aside once, from the available balance, if that suffices; a HELD one serves again.
  lemma ReserveForBidIff(b: Billing, bidder: CompanyId, auction: AuctionId, startPrice: int)
    requires BillingInv(b)
    ensures var r, k := ReserveForBid(b, bidder, auction, startPrice), DepositKey(auction, bidder);
            var before := if bidder in b.accounts then b.accounts[bidder] else Balance(0, 0);
            && (r.Ok? <==>
                  && bidder != NO_ID && auction != NO_ID
                  && if k in b.deposits then b.deposits[k].status == HELD
                     else startPrice > 0 && before.available >= DepositAsked(startPrice))
            && (r.Ok? && k in b.deposits ==> r.value == b)
            && (r.Ok? && k !in b.deposits ==>
                  var amount := DepositAsked(startPrice);
                  && r.value.deposits == b.deposits[k := DepositRow(amount, HELD)]
                  && r.value.accounts == b.accounts[bidder := Balance(before.available - amount, before.held + amount)]
                  && SamePapers(b, r.value))
  {
    hide Sum, HeldSum, Exists;
    var k := DepositKey(auction, bidder);
    CreateAccountIff(b, bidder);
    assert DepositAudited(b, k);
    if k in b.deposits {
      assert b.accounts[bidder := b.accounts[bidder]] == b.accounts;
      assert b.(accounts := b.accounts) == b;
    }
    if startPrice > 0 {
      DepositIsAsked(startPrice);
    }
    hide BillingInv, Money.DepositFromStartPrice;
    assert startPrice <= 0 ==> Money.DepositFromStartPrice(startPrice) <= 0;
  }

  // A stored deposit is captured while it is HELD, which takes it out of the held balance; once captured it stays so.
  lemma CaptureAuctionDepositIff(b: Billing, company: CompanyId, auction: AuctionId)
    requires BillingInv(b)
    ensures var r, k := CaptureAuctionDeposit(b, company, auction), DepositKey(auction, company);
            && (r.Ok? <==> k in b.deposits && (b.deposits[k].status == HELD || b.deposits[k].status == CAPTURED))
            && (r.Ok? && b.deposits[k].status == CAPTURED ==> r.value == b)
            && (r.Ok? && b.deposits[k].status == HELD ==>
                  && company in b.accounts && b.accounts[company].held >= b.deposits[k].amount
                  && r.value.deposits == b.deposits[k := b.deposits[k].(status := CAPTURED)]
                  && r.value.accounts == b.accounts[company := Balance(b.accounts[company].available,
                                                                       b.accounts[company].held - b.deposits[k].amount)])
  {
    hide Sum, HeldSum, BillingAdvances;
    var k := DepositKey(auction, company);
    if k in b.deposits {
      CaptureOutcome(b, company, auction);
      if b.deposits[k].status == HELD {
        HeldIsCovered(b, k);
      }
    }
    hide BillingInv;
  }

  // The same for giving it back, which makes it available again.
  lemma ReleaseAuctionDepositIff(b: Billing, company: CompanyId, auction: AuctionId)
    requires BillingInv(b)
    ensures var r, k := ReleaseAuctionDeposit(b, company, auction), DepositKey(auction, company);
            && (r.Ok? <==> k in b.deposits && (b.deposits[k].status == HELD || b.deposits[k].status == RELEASED))
            && (r.Ok? && b.deposits[k].status == RELEASED ==> r.value == b)
            && (r.Ok? && b.deposits[k].status == HELD ==>
                  && company in b.accounts && b.accounts[company].held >= b.deposits[k].amount
                  && r.value.deposits == b.deposits[k := b.deposits[k].(status := RELEASED)]
                  && r.value.accounts == b.accounts[company := Balance(b.accounts[company].available + b.deposits[k].amount,
                                                                       b.accounts[company].held - b.deposits[k].amount)])
  {
    hide Sum, HeldSum, BillingAdvances;
    var k := DepositKey(auction, company);
    if k in b.deposits {
      ReleaseOutcome(b, company, auction);
      if b.deposits[k].status == HELD {
        HeldIsCovered(b, k);
        HeldHasNoEndingLine(b, k);
      }
    }
    hide BillingInv;
  }

  // The losers' release only asks for named companies and a named auction.
  lemma ReleaseExceptCandidatesIff(b: Billing, auction: AuctionId, candidates: seq<CompanyId>)
    requires BillingInv(b)
    ensures ReleaseAuctionDepositsExceptCandidates(b, auction, candidates).Ok? <==> auction != NO_ID && NO_ID !in candidates
  {
    hide ReleaseAllUnlessCandidate, ListByAuction;
    if auction != NO_ID && NO_ID !in candidates {
      ReleaseExceptOutcome(b, auction, candidates);
    }
    hide BillingInv;
  }

  // A deposit that is not HELD any more needs no settling; a HELD one is settled exactly against the rest of the fee.
  lemma SettleWinnerDepositIff(b: Billing, auction: AuctionId, company: CompanyId, goods: int, feePaid: int)
    requires BillingInv(b)
    ensures var r, k := SettleWinnerDeposit(b, auction, company, goods, feePaid), DepositKey(auction, company);
            && (r.Ok? <==> goods > 0 && k in b.deposits && (b.deposits[k].status == HELD ==> feePaid == FeeLeft(b, goods, k)))
            && (r.Ok? && b.deposits[k].status != HELD ==> r.value == b)
  {
    hide Sum, HeldSum, BillingAdvances, Exists;
    var k := DepositKey(auction, company);
    if k in b.deposits {
      assert DepositAudited(b, k);
      if goods > 0 && b.deposits[k].status == HELD {
        BillingOutcomes.SettleOutcome(b, auction, company, goods, feePaid);
        hide SettleWinnerDeposit;
      }
    }
    hide BillingInv;
  }

  // The fee is taken from a HELD deposit once; a second call finds its line.
  lemma CapturePlatformFeeIff(b: Billing, company: CompanyId, auction: AuctionId, finalPrice: int)
    requires BillingInv(b) && company != NO_ID && auction != NO_ID
    ensures var r, k := CapturePlatformFeeFromDeposit(b, company, auction, finalPrice), DepositKey(auction, company);
            var done := Exists(b.ledger, FeeLineKey(k)) || Exists(b.ledger, FeeZeroKey(k));
            && (r.Ok? <==> finalPrice >= 0 && (done || (k in b.deposits && b.deposits[k].status == HELD)))
            && (r.Ok? && done ==> r.value == b)
  {
    hide Sum, HeldSum, BillingAdvances, Exists;
    var k := DepositKey(auction, company);
    if finalPrice >= 0 && k in b.deposits && b.deposits[k].status == HELD {
      BillingOutcomes.CaptureFeeOutcome(b, auction, company, finalPrice);
    }
    hide BillingInv;
  }

  // What a fee capture leaves behind makes the next one harmless.
  lemma CapturedFeeStays(b: Billing, company: CompanyId, auction: AuctionId, finalPrice: int)
    requires BillingInv(b) && finalPrice >= 0
    requires DepositKey(auction, company) in b.deposits && b.deposits[DepositKey(auction, company)].status == HELD
    ensures var r := CapturePlatformFeeFromDeposit(b, company, auction, finalPrice);
            r.Ok? && CapturePlatformFeeFromDeposit(r.value, company, auction, finalPrice) == r
  {
    var k := DepositKey(auction, company);
    BillingOutcomes.CaptureFeeOutcome(b, auction, company, finalPrice);
    HeldHasNoEndingLine(b, k);
    hide Sum, HeldSum, BillingInv, BillingAdvances, BillingOutcomes.DepositSplit, Exists, Money.PlatformFee;
    var b' := CapturePlatformFeeFromDeposit(b, company, auction, finalPrice).value;
    FeeLineWritten(b, k, finalPrice);
  }

  lemma FeeLineWritten(b: Billing, k: DepositKey, finalPrice: int)
    requires !Exists(b.ledger, FeeLineKey(k)) && !Exists(b.ledger, FeeZeroKey(k)) && k in b.deposits && b.deposits[k].status == HELD
    requires CapturePlatformFeeFromDeposit(b, k.company, k.auction, finalPrice).Ok?
    ensures var ledger := CapturePlatformFeeFromDeposit(b, k.company, k.auction, finalPrice).value.ledger;
            Exists(ledger, FeeLineKey(k)) || Exists(ledger, FeeZeroKey(k))
  {
    hide Sum, Money.PlatformFee;
    var fee: int, amount: int := Money.PlatformFee(finalPrice), b.deposits[k].amount;
    SumAppend(b.ledger, Entry(FeeZeroKey(k), amount));
    SumAppend(b.ledger, Entry(FeeLineKey(k), if fee < amount then fee else amount));
    var first := Append(b.ledger, Entry(FeeLineKey(k), if fee < amount then fee else amount));
    KeysStay(first, Entry(FeeRemainderKey(k), amount - fee), FeeLineKey(k));
    KeysStay(first, Entry(FeeDueKey(k), fee - amount), FeeLineKey(k));
    hide Exists, Append;
  }

  lemma KeysStay(ledger: seq<Entry>, e: Entry, key: Key)
    requires Exists(ledger, key)
    ensures Exists(Append(ledger, e), key)
  {
    var i :| 0 <= i < |ledger| && ledger[i].key == key;
    assert Append(ledger, e)[i].key == key;
  }

  // ---------- invoices ----------

  // What is left of a three percent fee when the HELD deposit is counted.
  function FeeLeft(b: Billing, goods: nat, k: DepositKey): nat {
    var fee := goods * 3 / 100;
    var held := if k in b.deposits && b.deposits[k].status == HELD then b.deposits[k].amount else 0;
    if fee <= held then 0 else fee - held
  }

  // An invoice is opened once per deal, between two different companies, if the provider takes it. It is due when the
  // deal asks, or within a day if the deal does not ask or asks for a time that has passed.
  lemma CreateDealInvoiceIff(b: Billing, cmd: InvoiceCommand, now: Time, providerAnswers: bool)
    ensures var r, k := CreateDealInvoice(b, cmd, now, providerAnswers), DepositKey(cmd.auction, cmd.buyer);
            && (r.Ok? <==>
                  && cmd.deal != NO_ID && cmd.buyer != NO_ID && cmd.seller != NO_ID && cmd.buyer != cmd.seller && cmd.goods > 0
                  && (cmd.deal in b.invoices || (providerAnswers && (cmd.auction == NO_ID || k in b.deposits))))
            && (r.Ok? && cmd.deal in b.invoices ==> r.value == b)
            && (r.Ok? && cmd.deal !in b.invoices && cmd.auction != NO_ID ==>
                  var due := FeeLeft(b, cmd.goods, k);
                  var dueAt := if cmd.dueAt != 0 && now <= cmd.dueAt then cmd.dueAt else now + 86_400;
                  r.value == b.(invoices := b.invoices[cmd.deal := InvoiceRow(cmd.deal, cmd.auction, cmd.buyer, cmd.seller, cmd.goods,
                                                                              due, cmd.goods + due, InvoicePaymentPending, dueAt)]))
  {
  }

  // A waiting invoice is paid, once, and its payment announced.
  lemma ConfirmDealInvoicePaidIff(b: Billing, d: DealId)
    requires BillingInv(b)
    ensures var r := ConfirmDealInvoicePaid(b, d);
            && (r.Ok? <==> d in b.invoices && b.invoices[d].status in {InvoicePaymentPending, InvoicePaid})
            && (r.Ok? && b.invoices[d].status == InvoicePaid ==> r.value == b)
            && (r.Ok? && b.invoices[d].status == InvoicePaymentPending ==>
                  var i := b.invoices[d];
                  r.value == b.(invoices := b.invoices[d := i.(status := InvoicePaid)],
                                outbox := b.outbox + [DealInvoicePaid(d, i.auction, i.buyer, i.goods, i.feeDue, i.goods + i.feeDue)]))
  {
    if d in b.invoices {
      assert InvoiceWellFormed(d, b.invoices[d]);
    }
    hide BillingInv;
  }

  // A waiting invoice expires from its due time on, and not before; paid and expired ones stay as they are.
  lemma ExpireDealInvoiceIff(b: Billing, d: DealId, now: Time)
    requires BillingInv(b)
    ensures var r := ExpireDealInvoice(b, d, now);
            && (r.Ok? <==> d in b.invoices && (b.invoices[d].status in {InvoicePaid, InvoiceExpired} || b.invoices[d].dueAt <= now))
            && (r.Ok? && b.invoices[d].status != InvoicePaymentPending ==> r.value == b)
            && (r.Ok? && b.invoices[d].status == InvoicePaymentPending ==>
                  var i := b.invoices[d];
                  r.value == b.(invoices := b.invoices[d := i.(status := InvoiceExpired)],
                                outbox := b.outbox + [DealInvoiceExpired(d, i.auction, i.buyer, i.goods + i.feeDue)]))
  {
    if d in b.invoices {
      assert InvoiceWellFormed(d, b.invoices[d]);
    }
    hide BillingInv;
  }

  // ---------- payouts ----------

  // A payout is owed once per deal, for a paid invoice that the command repeats.
  lemma CreateSellerPayoutIff(b: Billing, cmd: PayoutCommand)
    requires BillingInv(b)
    ensures var r := CreateSellerPayout(b, cmd);
            && (r.Ok? <==>
                  && cmd.deal != NO_ID && cmd.auction != NO_ID && cmd.buyer != NO_ID && cmd.goods > 0
                  && (cmd.deal in b.payouts
                      || (&& cmd.deal in b.invoices
                          && var i := b.invoices[cmd.deal];
                             && i.status == InvoicePaid && i.auction == cmd.auction && i.buyer == cmd.buyer
                             && i.goods == cmd.goods && i.feeDue == cmd.feeDue)))
            && (r.Ok? && cmd.deal in b.payouts ==> r.value == b)
            && (r.Ok? && cmd.deal !in b.payouts ==>
                  r.value == b.(payouts := b.payouts[cmd.deal := PayoutRow(cmd.deal, cmd.auction, b.invoices[cmd.deal].seller, cmd.buyer,
                                                                           cmd.goods, PayoutPending)]))
  {
    if cmd.deal in b.invoices {
      assert InvoiceWellFormed(cmd.deal, b.invoices[cmd.deal]);
    }
    hide BillingInv;
  }

  // A pending payout becomes ready; ready and paid ones stay; a failed one is never readied again.
  lemma MarkSellerPayoutReadyIff(b: Billing, d: DealId)
    requires BillingInv(b)
    ensures var r := MarkSellerPayoutReady(b, d);
            && (r.Ok? <==> d in b.payouts && b.payouts[d].status in {PayoutPending, PayoutReady, PayoutPaid})
            && (r.Ok? ==> r.value == if b.payouts[d].status == PayoutPending
                                     then b.(payouts := b.payouts[d := b.payouts[d].(status := PayoutReady)]) else b)
  {
    if d in b.payouts {
      assert PayoutAudited(b, d);
      assert InvoiceWellFormed(d, b.invoices[d]);
    }
    hide BillingInv;
  }

  // A payout that is not paid fails, and stays failed.
  lemma MarkSellerPayoutFailedIff(b: Billing, d: DealId)
    requires BillingInv(b)
    ensures var r := MarkSellerPayoutFailed(b, d);
            && (r.Ok? <==> d in b.payouts && b.payouts[d].status != PayoutPaid)
            && (r.Ok? ==> r.value == b.(payouts := b.payouts[d := b.payouts[d].(status := PayoutFailed)]))
  {
    if d in b.payouts {
      assert PayoutAudited(b, d);
      assert InvoiceWellFormed(d, b.invoices[d]);
    }
    hide BillingInv;
  }

  // ---------- the settlement of an auction ----------

  // The settlement is accepted exactly for a paid invoice that the event repeats, with the buyer's deposit known and, if
  // it is still HELD, charged with exactly the rest of the fee.
  lemma FinalizeAuctionIff(b: Billing, cmd: PayoutCommand)
    requires BillingInv(b)
    ensures var k := DepositKey(cmd.auction, cmd.buyer);
            FinalizeAuction(b, cmd).Ok?
            <==> && cmd.auction != NO_ID && cmd.deal in b.invoices && k in b.deposits
                 && var i := b.invoices[cmd.deal];
                    && i.status == InvoicePaid && i.auction == cmd.auction && i.buyer == cmd.buyer
                    && i.goods == cmd.goods && i.feeDue == cmd.feeDue
                    && (b.deposits[k].status == HELD ==> cmd.feeDue == FeeLeft(b, cmd.goods, k))
  {
    hide Sum, HeldSum, BillingAdvances, BillingInv, FeeLeft, SettleWinnerDeposit, ReleaseAuctionDepositsExceptCandidates,
         CreateSellerPayout;
    if cmd.deal in b.invoices {
      InvoiceFacts(b, cmd.deal);
      SettleWinnerDepositIff(b, cmd.auction, cmd.buyer, cmd.goods, cmd.feeDue);
      var settled := SettleWinnerDeposit(b, cmd.auction, cmd.buyer, cmd.goods, cmd.feeDue);
      if settled.Ok? {
        SettlingKeeps(b, cmd.auction, cmd.buyer, cmd.goods, cmd.feeDue);
        ReleaseExceptCandidatesIff(settled.value, cmd.auction, [cmd.buyer]);
        var i := b.invoices[cmd.deal];
        if cmd.auction != NO_ID && i.buyer == cmd.buyer {
          ReleaseExceptOutcome(settled.value, cmd.auction, [cmd.buyer]);
          CreateSellerPayoutIff(ReleaseAuctionDepositsExceptCandidates(settled.value, cmd.auction, [cmd.buyer]).value, cmd);
        }
      }
    }
  }

  lemma InvoiceFacts(b: Billing, d: DealId)
    requires BillingInv(b) && d in b.invoices
    ensures d != NO_ID && b.invoices[d].buyer != NO_ID && b.invoices[d].goods > 0
  {
    assert InvoiceWellFormed(d, b.invoices[d]);
  }

  lemma SettlingKeeps(b: Billing, auction: AuctionId, company: CompanyId, goods: int, feePaid: int)
    requires BillingInv(b) && SettleWinnerDeposit(b, auction, company, goods, feePaid).Ok?
    ensures var b' := SettleWinnerDeposit(b, auction, company, goods, feePaid).value; BillingInv(b') && SamePapers(b, b')
  {
    hide Sum, HeldSum, BillingAdvances, BillingInv, SettleWinnerDeposit, FeeLeft;
    SettleWinnerDepositIff(b, auction, company, goods, feePaid);
    if b.deposits[DepositKey(auction, company)].status == HELD {
      BillingOutcomes.SettleOutcome(b, auction, company, goods, feePaid);
    }
  }
}
