/** Every step and every delivery keeps the invariant, so every run does. */
module SettlementRuns {
  import opened Common
  import opened Wallet
  import opened BillingRules
  import opened BillingInvariants
  import opened BillingOutcomes
  import opened DealDomain
  import opened DealsRules
  import opened DealsInvariants
  import opened DealsOutcomes
  import opened Settlement
  import opened SettlementInvariants
  import opened SettlementSteps
  import Money
  import Ledger
  import AuctionDomain
  import TradingRules
  import TradingInvariants
  import DealsProgress

  // ---------- commands ----------

  lemma CommandContinues(ds: Deals, c: DealsStep)
    requires DealsInv(ds) && ApplyCommand(ds, c).Ok?
    requires c.DeclineStep? ==> c.newDeal != NO_ID && c.newDeal !in ds.deals
    ensures Continues(ds, ApplyCommand(ds, c).value)
  {
    hide DealsInv, Continues;
    match c
    case ProjectStep(a, supplier, productNamed, startPrice, publishedAt) =>
      CreateProjectionKeeps(ds, a, supplier, productNamed, startPrice, publishedAt);
    case DeclineStep(a, d, newDeal) => HandleDealDeclinedOutcome(ds, a, d, newDeal);
    case PrepareContractStep(d, number, now) => PrepareContractKeeps(ds, d, number, now);
    case SignContractStep(d, signedBy, signatureRef, now) => SignContractKeeps(ds, d, signedBy, signatureRef, now);
    case RequestPaymentStep(d, dueAt) => RequestPaymentKeeps(ds, d, dueAt);
    case RequestShipmentStep(d) => RequestShipmentKeeps(ds, d);
    case CancelStep(d, reason, actor) => CancelDealKeeps(ds, d, reason, actor);
    case RequestConfirmationStep(d, id, stage, company, user, comment, expiresAt) =>
      RequestDealConfirmationKeeps(ds, d, id, stage, company, user, comment, expiresAt);
    case ApproveStep(d, id, company, user, now) => ApproveDealConfirmationKeeps(ds, d, id, company, user, now);
    case RejectStep(d, id, company, user, now) => RejectDealConfirmationKeeps(ds, d, id, company, user, now);
  }

  // A billing command opens no invoice or payout and ends no deposit.
  lemma BillingStepIsPlain(w: World, p: BillingStep)
    requires BillingInv(w.billing) && Enabled(w, Pay(p)) && ApplyBilling(w.billing, p).Ok?
    ensures var b, b' := w.billing, ApplyBilling(w.billing, p).value;
            && BillingInv(b') && BillingAdvances(b, b') && b'.deposits == b.deposits
            && b'.invoices.Keys == b.invoices.Keys && b'.payouts.Keys == b.payouts.Keys
  {
    var b := w.billing;
    hide BillingInv, BillingAdvances, Ledger.Sum, Ledger.Exists;
    match p
    case AccountStep(company) => CreateAccountKeeps(b, company);
    case TopUpStep(company, amount, payment) => ConfirmTopUpKeeps(b, company, amount, payment);
    case OpenTopUpStep(company, amount, payment) => CreateTopUpKeeps(b, company, amount, payment);
    case ProviderTopUpStep(payment, amount) => ConfirmTopUpByProviderKeeps(b, payment, amount);
    case InvoicePaidStep(d) => ConfirmDealInvoicePaidKeeps(b, d);
    case InvoiceExpiredStep(d, now) => ExpireDealInvoiceKeeps(b, d, now);
    case PayoutReadyStep(d) => MarkSellerPayoutReadyKeeps(b, d);
    case PayoutPaidStep(d) => MarkSellerPayoutPaidOutcome(b, d);
    case PayoutFailedStep(d) => MarkSellerPayoutFailedKeeps(b, d);
  }

  // ---------- deliveries into deals ----------

  // The AuctionWon event is the announced result of a won auction.
  lemma WonIsAnnounced(w: World, won: TradingRules.Posted)
    requires WorldInv(w) && won in w.trading.outbox && won.event.AuctionWon?
    ensures Distinct(won.event.winners) && NO_ID !in won.event.winners && won.event.auction != NO_ID
    ensures won.event.auction in w.trading.auctions && w.trading.auctions[won.event.auction].state == AuctionDomain.Won
    ensures won.event.winners == AuctionDomain.Candidates(AuctionRuns.Reverse(TradingRules.BidsOf(w.trading, won.event.auction)))
    ensures won.event.finalPrice == w.trading.auctions[won.event.auction].currentPrice
  {
    WorldParts(w);
    TradingInvariants.WonFacts(w.trading, won);
    assert TradingInvariants.ResultOk(w.trading, won.event);
  }

  lemma OpenSelectionKeeps(w: World, won: TradingRules.Posted, newDeal: DealId)
    requires WorldInv(w) && Enabled(w, Deliver(OpenSelection(won, newDeal)))
    requires CreateDealSelection(w.deals, won.event.auction, won.event.winners, won.event.finalPrice, won.at, newDeal).Ok?
    ensures var ds' := CreateDealSelection(w.deals, won.event.auction, won.event.winners, won.event.finalPrice, won.at, newDeal).value;
            WorldInv(w.(deals := ds')) && Advances(w, w.(deals := ds')) && won.event.auction in ds'.selections
  {
    hide DealsInv, DealsAdvances, FinalizesNothing, CreateDealSelection, SelectionsAnnounced, FinalizedArePaid, Advances, Started;
    var e := won.event;
    var ds' := CreateDealSelection(w.deals, e.auction, e.winners, e.finalPrice, won.at, newDeal).value;
    WorldParts(w);
    WonIsAnnounced(w, won);
    CreateDealSelectionOutcome(w.deals, e.auction, e.winners, e.finalPrice, won.at, newDeal);
    SelectionsAnnouncedAfterOpening(w, ds', won, newDeal);
    FinalizedStayPaid(w.billing, w.deals, ds');
    DealsKeepLinks(w, ds');
    assert e.auction in ds'.selections by {
      if e.auction !in w.deals.selections {
        StartedSelects(w.deals, ds', e.auction, e.winners, e.finalPrice, newDeal);
      }
    }
  }

  lemma StartedSelects(ds: Deals, ds': Deals, a: AuctionId, winners: seq<CompanyId>, finalPrice: int, newDeal: DealId)
    requires Started(ds, ds', a, winners, finalPrice, newDeal)
    ensures a in ds'.selections
  {
  }

  lemma SelectionsAnnouncedAfterOpening(w: World, ds': Deals, won: TradingRules.Posted, newDeal: DealId)
    requires WorldInv(w) && won in w.trading.outbox && won.event.AuctionWon? && DealsInv(ds')
    requires ds' == w.deals || Started(w.deals, ds', won.event.auction, won.event.winners, won.event.finalPrice, newDeal)
    ensures SelectionsAnnounced(w.trading, ds')
  {
    WorldParts(w);
    DealsParts(w.deals);
    WonIsAnnounced(w, won);
    if ds' != w.deals {
      SelectionTrue(ds', won.event.auction);
    }
    hide TradingInvariants.TradingInv, BillingInv, DealsInv, InvoicesMatchDeals, FinalizedArePaid, PayoutsSettled, EndsExplained,
         DepositsMatchBids, AuctionDomain.Candidates;
    forall a | a in ds'.selections
      ensures SelectionAnnounced(w.trading, ds'.selections[a])
    {
      if a in w.deals.selections {
        assert SelectionAnnounced(w.trading, w.deals.selections[a]);
      }
    }
  }

  // The subscriber to DealCancelled succeeds for an emitted event or changes nothing.
  lemma CancelledDealContinues(ds: Deals, d: DealId, reason: CancelReason, newDeal: DealId)
    requires DealsInv(ds) && newDeal != NO_ID && newDeal !in ds.deals && DealsProgress.OnDealCancelled(ds, d, reason, newDeal).Ok?
    ensures Continues(ds, DealsProgress.OnDealCancelled(ds, d, reason, newDeal).value)
  {
    if reason == PaymentTimeout || HandleDealDeclined(ds, NO_ID, d, newDeal) == Err(ErrNoAvailableWinner) {
      DealsAdvancesReflexive(ds);
    } else {
      HandleDealDeclinedOutcome(ds, NO_ID, d, newDeal);
    }
  }

  // A DealInvoicePaid event always matches its deal, so its delivery succeeds exactly while payment is requested, or
  // changes nothing because the deal is paid already.
  lemma PaidInvoiceOutcome(w: World, e: BillingEvent)
    requires WorldInv(w) && e in w.billing.outbox && e.DealInvoicePaid?
    ensures e.deal in w.deals.deals
    ensures var r := HandleDealInvoicePaid(w.deals, e.deal, e.auction, e.buyer, e.goods, e.feeDue, e.amount);
            var row := w.deals.deals[e.deal];
            && row.customer == e.buyer && row.auction == e.auction && row.unitPrice == e.goods
            && (r.Ok? <==> row.status in {PaymentRequested, Paid})
            && (row.status == Paid ==> r == Ok(w.deals))
            && (row.status == PaymentRequested ==> PaidFor(w.deals, r.value, e.deal, e.goods, e.feeDue))
  {
    WorldParts(w);
    assert EventBacked(w.billing, e);
    assert InvoiceMatchesDeal(w.billing, w.deals, e.deal);
    assert InvoiceWellFormed(e.deal, w.billing.invoices[e.deal]);
    HandleDealInvoicePaidCases(w.deals, e.deal, e.auction, e.buyer, e.goods, e.feeDue, e.amount);
  }

  lemma FinalizedArePaidAfterPayment(w: World, e: BillingEvent, ds': Deals)
    requires WorldInv(w) && e in w.billing.outbox && e.DealInvoicePaid? && PaidFor(w.deals, ds', e.deal, e.goods, e.feeDue)
    requires w.deals.deals[e.deal].customer == e.buyer && w.deals.deals[e.deal].auction == e.auction
    ensures FinalizedArePaid(w.billing, ds')
  {
    hide WorldInv, BillingInv, DealsInv, TradingInvariants.TradingInv, FinalizedArePaid, PaidFor;
    WorldParts(w);
    PaidEventBacked(w.billing, e);
    PaymentFinalizesPaid(w.billing, w.deals, ds', e);
  }

  lemma PaymentFinalizesPaid(b: Billing, ds: Deals, ds': Deals, e: BillingEvent)
    requires FinalizedArePaid(b, ds) && e.DealInvoicePaid? && EventBacked(b, e) && PaidFor(ds, ds', e.deal, e.goods, e.feeDue)
    requires ds.deals[e.deal].customer == e.buyer && ds.deals[e.deal].auction == e.auction
    ensures FinalizedArePaid(b, ds')
  {
    forall x | x in ds'.outbox
      ensures FinalizedIsPaid(b, x)
    {
      if x in ds.outbox {
        assert FinalizedIsPaid(b, x);
      }
    }
  }

  lemma PaidEventBacked(b: Billing, e: BillingEvent)
    requires BillingInv(b) && e in b.outbox
    ensures EventBacked(b, e)
  {
  }

  lemma SelectionsAnnouncedAfterPayment(ts: TradingRules.Trading, ds: Deals, ds': Deals)
    requires SelectionsAnnounced(ts, ds) && DealsAdvances(ds, ds') && ds'.selections.Keys == ds.selections.Keys
    ensures SelectionsAnnounced(ts, ds')
  {
    forall a | a in ds'.selections
      ensures SelectionAnnounced(ts, ds'.selections[a])
    {
      assert a in ds.selections.Keys;
      SelectionsStayAnnounced(ts, ds, ds', a);
    }
  }

  lemma PaidInvoiceKeeps(w: World, e: BillingEvent)
    requires WorldInv(w) && e in w.billing.outbox && e.DealInvoicePaid?
    requires HandleDealInvoicePaid(w.deals, e.deal, e.auction, e.buyer, e.goods, e.feeDue, e.amount).Ok?
    ensures var ds' := HandleDealInvoicePaid(w.deals, e.deal, e.auction, e.buyer, e.goods, e.feeDue, e.amount).value;
            WorldInv(w.(deals := ds')) && Advances(w, w.(deals := ds')) && e.deal in ds'.deals && ds'.deals[e.deal].status == Paid
  {
    WorldParts(w);
    PaidInvoiceOutcome(w, e);
    var ds' := HandleDealInvoicePaid(w.deals, e.deal, e.auction, e.buyer, e.goods, e.feeDue, e.amount).value;
    if w.deals.deals[e.deal].status == Paid {
      AdvancesReflexive(w);
      assert w.(deals := ds') == w;
      hide Advances, HandleDealInvoicePaid;
    } else {
      assert DealsInv(w.deals) && SelectionsAnnounced(w.trading, w.deals);
      assert e.deal in ds'.deals && ds'.deals[e.deal].status == Paid;
      FinalizedArePaidAfterPayment(w, e, ds');
      hide DealsInv, HandleDealInvoicePaid, DealsAdvances, SelectionsAnnounced, FinalizedArePaid, PaidFor, Advances;
      PaidForKeeps(w.deals, ds', e.deal, e.goods, e.feeDue);
      SelectionsAnnouncedAfterPayment(w.trading, w.deals, ds');
      DealsKeepLinks(w, ds');
    }
  }

  // ---------- deliveries into billing ----------

  lemma ReleaseLosersKeeps(w: World, won: TradingRules.Posted)
    requires WorldInv(w) && won in w.trading.outbox && won.event.AuctionWon?
    ensures var r := ReleaseAuctionDepositsExceptCandidates(w.billing, won.event.auction, won.event.winners);
            && r.Ok? && WorldInv(w.(billing := r.value)) && Advances(w, w.(billing := r.value))
            && LosersFree(r.value, won.event.auction, won.event.winners)
  {
    WorldParts(w);
    var a, winners := won.event.auction, won.event.winners;
    WonIsAnnounced(w, won);
    ReleaseExceptOutcome(w.billing, a, winners);
    var b' := ReleaseAuctionDepositsExceptCandidates(w.billing, a, winners).value;
    assert BillingInv(w.billing);
    assert forall k | k in b'.deposits && b'.deposits[k] != w.billing.deposits[k] :: Lost(w.trading, k);
    hide BillingInv, BillingAdvances, Advances, ReleaseAuctionDepositsExceptCandidates, Lost;
    BillingKeepsLinks(w, b');
  }

  // Only candidates' deposits of the auction are still HELD.
  predicate LosersFree(b: Billing, a: AuctionId, winners: seq<CompanyId>) {
    forall k | k in b.deposits && k.auction == a && k.company !in winners :: b.deposits[k].status != HELD
  }

  // A rejected winner has a deposit. It is forfeited unless the auction was settled first, which may have given it
  // back: the delivery fails exactly when the auction is settled and the deposit is not CAPTURED.
  lemma RejectedWinnerOutcome(w: World, e: DealEvent)
    requires WorldInv(w) && e in w.deals.outbox && e.WinnerRejected?
    ensures var k := DepositKey(e.auction, e.company);
            var r := CaptureAuctionDeposit(w.billing, e.company, e.auction);
            && k in w.billing.deposits && Forfeited(w.deals, k)
            && (r.Err? <==> Settled(w.billing, e.auction) && w.billing.deposits[k].status != CAPTURED)
            && (r.Err? ==> r.error == ErrDepositNotHeld)
            && (r.Ok? ==> k in r.value.deposits && r.value.deposits[k].status == CAPTURED)
  {
    WorldParts(w);
    DealsParts(w.deals);
    var k := DepositKey(e.auction, e.company);
    assert DealEventOk(w.deals, e);
    CustomerHasDeposit(w, e.deal);
    CaptureOutcome(w.billing, e.company, e.auction);
    assert EndExplained(w.trading, w.billing, w.deals, k);
    if Settled(w.billing, e.auction) {
      SettledHoldsNothing(w, e.auction, k);
    }
  }

  lemma SettledHoldsNothing(w: World, a: AuctionId, k: DepositKey)
    requires WorldInv(w) && Settled(w.billing, a) && k in w.billing.deposits && k.auction == a
    ensures w.billing.deposits[k].status != HELD
  {
    WorldParts(w);
    var d :| d in w.billing.payouts && w.billing.payouts[d].auction == a;
    assert PayoutSettled(w.billing, w.deals, d);
  }

  lemma ForfeitureKeeps(w: World, b': Billing, k: DepositKey)
    requires WorldInv(w) && BillingInv(b') && BillingAdvances(w.billing, b') && SamePapers(w.billing, b')
    requires k in w.billing.deposits && b'.deposits == w.billing.deposits[k := w.billing.deposits[k].(status := CAPTURED)]
    requires Forfeited(w.deals, k)
    ensures WorldInv(w.(billing := b')) && Advances(w, w.(billing := b'))
  {
    hide BillingInv, BillingAdvances, Advances, Lost, Forfeited, Settled;
    BillingKeepsLinks(w, b');
  }

  lemma RejectedWinnerKeeps(w: World, e: DealEvent)
    requires WorldInv(w) && e in w.deals.outbox && e.WinnerRejected?
    requires CaptureAuctionDeposit(w.billing, e.company, e.auction).Ok?
    ensures var b' := CaptureAuctionDeposit(w.billing, e.company, e.auction).value;
            WorldInv(w.(billing := b')) && Advances(w, w.(billing := b'))
  {
    hide BillingInv, BillingAdvances, Advances, CaptureAuctionDeposit, Lost, Forfeited, Settled;
    WorldParts(w);
    RejectedWinnerOutcome(w, e);
    CaptureOutcome(w.billing, e.company, e.auction);
    ForfeitureKeeps(w, CaptureAuctionDeposit(w.billing, e.company, e.auction).value, DepositKey(e.auction, e.company));
  }

  // A payment request reaches billing with its deal's parties and price, and the buyer's deposit row exists.
  lemma RequestedPaymentFacts(w: World, e: DealEvent)
    requires WorldInv(w) && e in w.deals.outbox && e.PaymentRequestedEvent?
    ensures e.deal in w.deals.deals
    ensures var row := w.deals.deals[e.deal];
            && row.auction == e.auction && row.customer == e.buyer && row.supplier == e.seller && row.unitPrice == e.goods
            && (row.status == PaymentRequested || !PrePaid(row.status))
            && e.auction != NO_ID && DepositKey(e.auction, e.buyer) in w.billing.deposits
  {
    WorldParts(w);
    DealsParts(w.deals);
    assert DealEventOk(w.deals, e);
    CustomerHasDeposit(w, e.deal);
    BuyerNamed(w.deals, e.deal);
  }

  lemma NewInvoiceMatches(w: World, e: DealEvent, now: Time, providerAnswers: bool)
    requires WorldInv(w) && e in w.deals.outbox && e.PaymentRequestedEvent? && e.deal !in w.billing.invoices
    requires CreateDealInvoice(w.billing, InvoiceCommand(e.deal, e.auction, e.buyer, e.seller, e.goods, e.dueAt), now, providerAnswers).Ok?
    ensures var b' := CreateDealInvoice(w.billing, InvoiceCommand(e.deal, e.auction, e.buyer, e.seller, e.goods, e.dueAt), now, providerAnswers).value;
            e.deal in b'.invoices && InvoiceMatchesDeal(b', w.deals, e.deal)
  {
    WorldParts(w);
    var cmd := InvoiceCommand(e.deal, e.auction, e.buyer, e.seller, e.goods, e.dueAt);
    RequestedPaymentFacts(w, e);
    CreateDealInvoiceKeeps(w.billing, cmd, now, providerAnswers);
    if Live(w.deals, e.deal) {
      assert e.deal !in w.billing.payouts by {
        assert PayoutAudited(w.billing, e.deal);
      }
      LiveDealKeepsDeposit(w, e.deal);
    }
    hide BillingInv, BillingAdvances, CreateDealInvoice, Money.PlatformFee, Live;
  }

  lemma RequestedPaymentKeeps(w: World, e: DealEvent, now: Time, providerAnswers: bool)
    requires WorldInv(w) && e in w.deals.outbox && e.PaymentRequestedEvent?
    requires CreateDealInvoice(w.billing, InvoiceCommand(e.deal, e.auction, e.buyer, e.seller, e.goods, e.dueAt), now, providerAnswers).Ok?
    ensures var b' := CreateDealInvoice(w.billing, InvoiceCommand(e.deal, e.auction, e.buyer, e.seller, e.goods, e.dueAt), now, providerAnswers).value;
            WorldInv(w.(billing := b')) && Advances(w, w.(billing := b')) && e.deal in b'.invoices
  {
    WorldParts(w);
    var cmd := InvoiceCommand(e.deal, e.auction, e.buyer, e.seller, e.goods, e.dueAt);
    assert BillingInv(w.billing);
    CreateDealInvoiceKeeps(w.billing, cmd, now, providerAnswers);
    var b' := CreateDealInvoice(w.billing, cmd, now, providerAnswers).value;
    if e.deal !in w.billing.invoices {
      NewInvoiceMatches(w, e, now, providerAnswers);
    }
    hide BillingInv, BillingAdvances, Advances, CreateDealInvoice, InvoiceMatchesDeal;
    BillingKeepsLinks(w, b');
  }

  // ---------- finalization ----------

  function PayoutFor(e: DealEvent): PayoutCommand
    requires e.WinnerSelectionFinalized?
  {
    PayoutCommand(e.deal, e.auction, e.company, e.goods, e.feeDue)
  }

  lemma FinalizedMeans(ds: Deals, e: DealEvent)
    requires e.WinnerSelectionFinalized? && DealEventOk(ds, e)
    ensures FinalizedOn(ds, e.deal) && ds.deals[e.deal].auction == e.auction
            && ds.deals[e.deal].customer == e.company && ds.deals[e.deal].unitPrice == e.goods
  {
  }

  // An emitted WinnerSelectionFinalized repeats the deal it finalized and the invoice that was paid for it.
  lemma FinalizedFacts(w: World, e: DealEvent)
    requires WorldInv(w) && e in w.deals.outbox && e.WinnerSelectionFinalized?
    ensures FinalizedOn(w.deals, e.deal) && w.deals.deals[e.deal].auction == e.auction && e.auction != NO_ID
            && w.deals.deals[e.deal].customer == e.company && e.company != NO_ID && w.deals.deals[e.deal].unitPrice == e.goods
    ensures FinalizedIsPaid(w.billing, e)
    ensures InvoiceMatchesDeal(w.billing, w.deals, e.deal) && InvoiceWellFormed(e.deal, w.billing.invoices[e.deal])
  {
    hide DealsInv, InvoiceMatchesDeal, DealEventOk, FinalizedOn, TradingInvariants.TradingInv, EndsExplained, PayoutsSettled;
    WorldParts(w);
    EventTrue(w.deals, e);
    assert FinalizedIsPaid(w.billing, e);
    assert InvoiceMatchesDeal(w.billing, w.deals, e.deal) && InvoiceWellFormed(e.deal, w.billing.invoices[e.deal]);
    FinalizedMeans(w.deals, e);
    BuyerNamed(w.deals, e.deal);
  }

  // When it is delivered for the first time the winner's deposit is still HELD and the invoice charged exactly the
  // rest of the fee.
  lemma FinalizationReady(w: World, e: DealEvent)
    requires WorldInv(w) && e in w.deals.outbox && e.WinnerSelectionFinalized? && e.deal !in w.billing.payouts
    ensures var k := DepositKey(e.auction, e.company);
            && k in w.billing.deposits && w.billing.deposits[k].status == HELD
            && e.feeDue == Money.FeeDue(e.goods, w.billing.deposits[k].amount)
  {
    hide Money.FeeDue, InvoiceWellFormed;
    FinalizedFacts(w, e);
    LiveDealKeepsDeposit(w, e.deal);
  }

  lemma SettledPayout(w: World, e: DealEvent, b': Billing)
    requires e.WinnerSelectionFinalized? && FinalizedOn(w.deals, e.deal) && AuctionSettled(w.billing, b', PayoutFor(e))
    requires w.deals.deals[e.deal].auction == e.auction && w.deals.deals[e.deal].customer == e.company && w.deals.deals[e.deal].unitPrice == e.goods
    ensures e.deal in b'.payouts && PayoutSettled(b', w.deals, e.deal) && Settled(b', e.auction)
    ensures forall k | k in b'.deposits && b'.deposits[k] != w.billing.deposits[k] :: k.auction == e.auction
  {
    hide Ledger.Sum, Money.PlatformFee, FinalizedOn, Money.Min;
  }

  lemma AuctionSettledKeeps(w: World, e: DealEvent, b': Billing)
    requires WorldInv(w) && BillingInv(b') && BillingAdvances(w.billing, b')
    requires e.WinnerSelectionFinalized? && FinalizedOn(w.deals, e.deal) && AuctionSettled(w.billing, b', PayoutFor(e))
    requires w.deals.deals[e.deal].auction == e.auction && w.deals.deals[e.deal].customer == e.company && w.deals.deals[e.deal].unitPrice == e.goods
    ensures WorldInv(w.(billing := b')) && Advances(w, w.(billing := b')) && e.deal in b'.payouts
  {
    hide BillingInv, BillingAdvances, Advances, PayoutSettled, Lost, Forfeited, Settled, FinalizedOn, Money.PlatformFee, Ledger.Sum, Money.Min;
    SettledPayout(w, e, b');
    BillingKeepsLinks(w, b');
  }

  lemma FinalizeSettles(w: World, e: DealEvent)
    requires WorldInv(w) && e in w.deals.outbox && e.WinnerSelectionFinalized? && e.deal !in w.billing.payouts
    ensures var r := FinalizeAuction(w.billing, PayoutFor(e));
            && r.Ok? && WorldInv(w.(billing := r.value)) && Advances(w, w.(billing := r.value)) && e.deal in r.value.payouts
            && AuctionSettled(w.billing, r.value, PayoutFor(e))
  {
    hide BillingInv, BillingAdvances, Advances, FinalizeAuction, AuctionSettled, FinalizedOn, Money.FeeDue, InvoiceMatchesDeal,
         InvoiceWellFormed;
    WorldParts(w);
    FinalizedFacts(w, e);
    FinalizationReady(w, e);
    FinalizeOutcome(w.billing, PayoutFor(e));
    AuctionSettledKeeps(w, e, FinalizeAuction(w.billing, PayoutFor(e)).value);
  }

  // Delivering it again finds the payout and changes nothing at all.
  lemma FinalizeIsIdle(w: World, e: DealEvent)
    requires WorldInv(w) && e in w.deals.outbox && e.WinnerSelectionFinalized? && e.deal in w.billing.payouts
    ensures FinalizeAuction(w.billing, PayoutFor(e)) == Ok(w.billing)
  {
    WorldParts(w);
    assert PayoutSettled(w.billing, w.deals, e.deal);
    hide Ledger.Sum, Money.PlatformFee, FinalizedOn, InvoiceMatchesDeal;
    FinalizedFacts(w, e);
    FinalizeNothing(w.billing, PayoutFor(e));
  }

  lemma FinalizeNothing(b: Billing, cmd: PayoutCommand)
    requires cmd.deal in b.invoices && cmd.deal in b.payouts && InvoiceWellFormed(cmd.deal, b.invoices[cmd.deal])
    requires var i := b.invoices[cmd.deal];
             i.status == InvoicePaid && i.auction == cmd.auction && i.buyer == cmd.buyer && i.goods == cmd.goods && i.feeDue == cmd.feeDue
    requires cmd.auction != NO_ID && DepositKey(cmd.auction, cmd.buyer) in b.deposits
    requires forall k | k in b.deposits && k.auction == cmd.auction :: b.deposits[k].status != HELD
    ensures FinalizeAuction(b, cmd) == Ok(b)
  {
    ReleaseLoopIdle(b, cmd.auction, [cmd.buyer], ListByAuction(b.deposits, cmd.auction));
    hide ListByAuction;
  }

  // The settlement of a finalized auction never fails, whatever was delivered before it and in whatever order.
  lemma FinalizeKeeps(w: World, e: DealEvent)
    requires WorldInv(w) && e in w.deals.outbox && e.WinnerSelectionFinalized?
    ensures var r := FinalizeAuction(w.billing, PayoutFor(e));
            && r.Ok? && WorldInv(w.(billing := r.value)) && Advances(w, w.(billing := r.value)) && e.deal in r.value.payouts
  {
    if e.deal in w.billing.payouts {
      FinalizeIsIdle(w, e);
      AdvancesReflexive(w);
      assert w.(billing := w.billing) == w;
    } else {
      FinalizeSettles(w, e);
    }
    hide Advances, FinalizeAuction;
  }

  // ---------- every run ----------

  lemma DeliveryKeeps(w: World, v: Delivery)
    requires WorldInv(w) && Enabled(w, Deliver(v)) && ApplyDelivery(w, v).Ok?
    ensures WorldInv(ApplyDelivery(w, v).value) && Advances(w, ApplyDelivery(w, v).value)
  {
    hide Advances, Continues, DealsInv, BillingInv, TradingInvariants.TradingInv, LosersFree, FellBack, CreateDealSelection, DealsProgress.OnDealCancelled,
         HandleDealInvoicePaid, HandleDealInvoiceExpired,
         ReleaseAuctionDepositsExceptCandidates, CaptureAuctionDeposit, CreateDealInvoice, FinalizeAuction;
    WorldParts(w);
    match v
    case OpenSelection(won, newDeal) => OpenSelectionKeeps(w, won, newDeal);
    case ReleaseLosers(won) => ReleaseLosersKeeps(w, won);
    case CancelledDeal(e, newDeal) =>
      CancelledDealContinues(w.deals, e.deal, e.reason, newDeal);
      DealsStepKeeps(w, DealsProgress.OnDealCancelled(w.deals, e.deal, e.reason, newDeal).value);
    case RejectedWinner(e) => RejectedWinnerKeeps(w, e);
    case RequestedPayment(e, now, providerAnswers) => RequestedPaymentKeeps(w, e, now, providerAnswers);
    case PaidInvoice(e) => PaidInvoiceKeeps(w, e);
    case ExpiredInvoice(e, newDeal) =>
      HandleDealInvoiceExpiredOutcome(w.deals, e.deal, e.auction, e.buyer, newDeal);
      DealsStepKeeps(w, HandleDealInvoiceExpired(w.deals, e.deal, e.auction, e.buyer, newDeal).value);
    case FinalizedSelection(e) => FinalizeKeeps(w, e);
  }

  lemma StepKeeps(w: World, s: Step)
    requires WorldInv(w)
    ensures WorldInv(After(w, s)) && Advances(w, After(w, s))
  {
    AdvancesReflexive(w);
    hide Advances, BillingInv, DealsInv, BillingAdvances, Continues;
    WorldParts(w);
    if Enabled(w, s) && Apply(w, s).Ok? {
      match s
      case Trade(t) => TradingStepsKeep(w, t);
      case Command(c) =>
        CommandContinues(w.deals, c);
        DealsStepKeeps(w, ApplyCommand(w.deals, c).value);
      case Pay(p) =>
        BillingStepIsPlain(w, p);
        PlainBillingStepKeeps(w, ApplyBilling(w.billing, p).value);
      case Deliver(v) => DeliveryKeeps(w, v);
    }
  }

  lemma {:induction false} RunConcat(w: World, steps: seq<Step>, more: seq<Step>)
    ensures Run(w, steps + more) == Run(Run(w, steps), more)
  {
    if more == [] {
      assert steps + more == steps;
    } else {
      hide After;
      var n := |more| - 1;
      assert (steps + more)[..|steps + more| - 1] == steps + more[..n];
      RunConcat(w, steps, more[..n]);
    }
  }

  lemma OneStep(w: World, s: Step)
    ensures Run(w, [s]) == After(w, s)
  {
    hide After;
    assert [s][..0] == [];
  }

  // Main theorem: from any good state every run, with events delivered late, repeatedly and out of order,
  // keeps the invariant and undoes nothing.
  lemma {:induction false} RunKeeps(w: World, steps: seq<Step>)
    requires WorldInv(w)
    ensures WorldInv(Run(w, steps)) && Advances(w, Run(w, steps))
  {
    if steps == [] {
      AdvancesReflexive(w);
    } else {
      var last := |steps| - 1;
      hide Advances, After;
      RunKeeps(w, steps[..last]);
      StepKeeps(Run(w, steps[..last]), steps[last]);
      AdvancesTransitive(w, Run(w, steps[..last]), Run(w, steps));
    }
  }

  lemma EveryRun(steps: seq<Step>)
    ensures WorldInv(Run(START, steps))
  {
    StartInv();
    RunKeeps(START, steps);
  }
}
