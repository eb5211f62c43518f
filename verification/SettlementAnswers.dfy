/** When the steps of the whole system are accepted, and what they change, where that takes more than one context to say. */
module SettlementAnswers {
  import opened Common
  import opened Wallet
  import opened TradingRules
  import opened BillingRules
  import opened BillingInvariants
  import opened DealDomain
  import opened DealsRules
  import opened DealsInvariants
  import opened Settlement
  import opened SettlementInvariants
  import opened Announcements
  import opened DealsAnswers
  import AuctionDomain
  import SelectionDomain
  import TradingInvariants
  import TradingAnswers
  import BillingAnswers
  import DealsOutcomes
  import SettlementSteps
  import SettlementRuns
  import Ledger

  // ---------- expired invoices ----------

  lemma FinalizedInvoiceIsPaid(w: World, d: DealId)
    requires WorldInv(w) && DealsAnnounced(w.deals) && FinalizedOn(w.deals, d)
    ensures d in w.billing.invoices && w.billing.invoices[d].status == InvoicePaid
  {
    hide DealsInv, BillingInv, TradingInvariants.TradingInv, FinalizedOn;
    WorldParts(w);
    assert FinalizationAnnounced(w.deals, d);
    var f :| f in w.deals.outbox && f.WinnerSelectionFinalized? && f.deal == d;
    assert FinalizedIsPaid(w.billing, f);
  }

  // An expired invoice was never paid, so its deal still waits for the payment, or is cancelled already.
  lemma ExpiredInvoiceDeal(w: World, e: BillingEvent)
    requires WorldInv(w) && DealsAnnounced(w.deals) && e in w.billing.outbox && e.DealInvoiceExpired?
    ensures e.deal in w.deals.deals
    ensures var row := w.deals.deals[e.deal];
            && row.auction == e.auction && row.customer == e.buyer
            && (row.status == PaymentRequested || row.status == Cancelled)
            && (row.status == PaymentRequested ==> row.confirmedAt.Some?)
  {
    hide DealsInv, BillingInv, TradingInvariants.TradingInv, Live;
    WorldParts(w);
    SettlementRuns.PaidEventBacked(w.billing, e);
    assert InvoiceMatchesDeal(w.billing, w.deals, e.deal);
    DealStatusImpliesSelection(w.deals, e.deal);
    if w.deals.deals[e.deal].status in {Paid, ShipmentRequested, Shipped, Completed} {
      FinalizedInvoiceIsPaid(w, e.deal);
      assert false;
    }
  }

  // In every state that runs reach, the expiry of an invoice is accepted: a deal that still waits for its payment is
  // cancelled, its deposit forfeited, and the next candidate gets a deal or the selection is exhausted; a deal that is
  // cancelled already stays as it is.
  lemma ExpiredInvoiceOutcome(w: World, e: BillingEvent, newDeal: DealId)
    requires WorldInv(w) && DealsAnnounced(w.deals) && e in w.billing.outbox && e.DealInvoiceExpired? && FreshDeal(w, newDeal)
    ensures e.deal in w.deals.deals
    ensures var r, row := ApplyDelivery(w, ExpiredInvoice(e, newDeal)), w.deals.deals[e.deal];
            && r.Ok? && r.value == w.(deals := r.value.deals)
            && (row.status == PaymentRequested || row.status == Cancelled)
            && (row.status == Cancelled ==> r.value == w)
            && (row.status == PaymentRequested ==>
                  && row.auction in w.deals.selections
                  && MovedOnAfterExpiry(w.deals, r.value.deals, e.deal, newDeal))
  {
    hide WorldInv, DealsInv, DealsAnnounced, HandleDealInvoiceExpired, NextOrNone, MovedOnAfterExpiry;
    DealsKept(w);
    ExpiredInvoiceDeal(w, e);
    HandleDealInvoiceExpiredIff(w.deals, e.deal, e.auction, e.buyer, newDeal);
    StoredDeal(w.deals, e.deal);
    if w.deals.deals[e.deal].status == PaymentRequested {
      ExpiryMovesOn(w.deals, HandleDealInvoiceExpired(w.deals, e.deal, e.auction, e.buyer, newDeal).value, e.deal, newDeal);
    }
  }

  // Deal d is cancelled and forfeited; the next candidate has a pending deal, or there was none.
  predicate MovedOnAfterExpiry(ds: Deals, ds': Deals, d: DealId, newDeal: DealId)
    requires d in ds.deals && ds.deals[d].auction in ds.selections
  {
    var row := ds.deals[d];
    var a, sel := row.auction, ds.selections[row.auction];
    && d in ds'.deals && ds'.deals[d] == row.(status := Cancelled)
    && WinnerRejected(d, a, row.customer, PaymentTimeout) in ds'.outbox
    && a in ds'.selections
    && if 0 <= sel.currentIndex + 1 < |sel.candidates| then
         && ds'.selections[a].status == SelectionDomain.Active && ds'.selections[a].deal == newDeal
         && ds'.selections[a].currentIndex == sel.currentIndex + 1
         && newDeal in ds'.deals && ds'.deals[newDeal].status == Pending
         && ds'.deals[newDeal].customer == sel.candidates[sel.currentIndex + 1]
       else ds'.selections[a].status == SelectionDomain.Exhausted
  }

  lemma ExpiryMovesOn(ds: Deals, ds': Deals, d: DealId, newDeal: DealId)
    requires DealsInv(ds) && d in ds.deals && ds.deals[d].status == PaymentRequested && newDeal !in ds.deals
    requires var row := ds.deals[d];
             var cancelled := ds.(deals := ds.deals[d := row.(status := Cancelled)],
                                  outbox := ds.outbox + [DealCancelled(d, PaymentTimeout),
                                                         WinnerRejected(d, row.auction, row.customer, PaymentTimeout)]);
             && row.auction in ds.selections && ds.selections[row.auction].currentIndex >= 0
             && NextOrNone(cancelled, ds', row.auction, newDeal)
    ensures MovedOnAfterExpiry(ds, ds', d, newDeal)
  {
    DealStatusImpliesSelection(ds, d);
    hide DealsInv;
    var row := ds.deals[d];
    assert ds'.outbox[|ds.outbox| + 1] == WinnerRejected(d, row.auction, row.customer, PaymentTimeout);
  }

  // ---------- payment requests ----------

  // The invoice that billing opens for deal d, whose row is given, asked for at `now` with a due time.
  predicate Invoiced(b: Billing, b': Billing, d: DealId, row: DealRow, dueAt: Time, now: Time) {
    var due := BillingAnswers.FeeLeft(b, if row.unitPrice > 0 then row.unitPrice else 0, DepositKey(row.auction, row.customer));
    b' == b.(invoices := b.invoices[d := InvoiceRow(d, row.auction, row.customer, row.supplier, row.unitPrice, due, row.unitPrice + due,
                                                    InvoicePaymentPending, if dueAt != 0 && now <= dueAt then dueAt else now + 86_400)])
  }

  lemma InvoicingOutcome(b: Billing, d: DealId, row: DealRow, dueAt: Time, now: Time, providerAnswers: bool)
    requires d != NO_ID && row.auction != NO_ID && row.customer != NO_ID && row.supplier != NO_ID && row.unitPrice > 0
    requires DepositKey(row.auction, row.customer) in b.deposits
    ensures var r := CreateDealInvoice(b, InvoiceCommand(d, row.auction, row.customer, row.supplier, row.unitPrice, dueAt), now, providerAnswers);
            && (r.Ok? <==> row.customer != row.supplier && (d in b.invoices || providerAnswers))
            && (r.Ok? ==> if d in b.invoices then r.value == b else Invoiced(b, r.value, d, row, dueAt, now))
  {
    BillingAnswers.CreateDealInvoiceIff(b, InvoiceCommand(d, row.auction, row.customer, row.supplier, row.unitPrice, dueAt), now, providerAnswers);
    hide CreateDealInvoice, BillingAnswers.FeeLeft;
  }

  // An emitted payment request always finds what it needs: it is refused only while the provider does not answer, or for
  // good if the buyer is the seller. The first time it opens the invoice, due when the deal asks but not in the past.
  lemma RequestedPaymentOutcome(w: World, e: DealEvent, now: Time, providerAnswers: bool)
    requires WorldInv(w) && e in w.deals.outbox && e.PaymentRequestedEvent?
    ensures e.deal in w.deals.deals
    ensures var r, row := ApplyDelivery(w, RequestedPayment(e, now, providerAnswers)), w.deals.deals[e.deal];
            && (r.Ok? <==> row.customer != row.supplier && (e.deal in w.billing.invoices || providerAnswers))
            && (r.Ok? ==> r.value == w.(billing := r.value.billing))
            && (r.Ok? ==> if e.deal in w.billing.invoices then r.value.billing == w.billing
                          else Invoiced(w.billing, r.value.billing, e.deal, row, e.dueAt, now))
  {
    hide WorldInv, DealsInv, CreateDealInvoice, Invoiced;
    SettlementRuns.RequestedPaymentFacts(w, e);
    DealsKept(w);
    StoredDeal(w.deals, e.deal);
    PricePositive(w.deals, e.deal);
    InvoicingOutcome(w.billing, e.deal, w.deals.deals[e.deal], e.dueAt, now, providerAnswers);
  }

  lemma DealsKept(w: World)
    requires WorldInv(w)
    ensures DealsInv(w.deals)
  {
    hide DealsInv;
    WorldParts(w);
  }

  lemma PricePositive(ds: Deals, d: DealId)
    requires DealsInv(ds) && d in ds.deals
    ensures ds.deals[d].unitPrice > 0
  {
    DealsParts(ds);
    var a := ds.deals[d].auction;
    assert DealOk(ds, d) && SelectionOk(ds, a);
    var attempts := Attempts(ds.outbox, a);
    hide Attempts, DealsInv;
    var k :| 0 <= k < |attempts| && attempts[k] == d;
    assert AttemptFits(ds, ds.selections[a], k, attempts[k]);
  }

  // ---------- no invoice expires before its time ----------

  predicate Expired(w: World, d: DealId) {
    d in w.billing.invoices && w.billing.invoices[d].status == InvoiceExpired
  }

  // The provider or the scheduler ends invoice d at a time not before it is due.
  predicate EndsOverdue(s: Step, d: DealId, dueAt: Time) {
    s.Pay? && s.p.InvoiceExpiredStep? && s.p.d == d && s.p.now >= dueAt
  }

  lemma BillingStepExpires(w: World, p: BillingStep, d: DealId)
    requires BillingInv(w.billing) && ApplyBilling(w.billing, p).Ok? && !Expired(w, d)
    requires d in ApplyBilling(w.billing, p).value.invoices && ApplyBilling(w.billing, p).value.invoices[d].status == InvoiceExpired
    ensures EndsOverdue(Pay(p), d, ApplyBilling(w.billing, p).value.invoices[d].dueAt)
  {
    hide BillingInv, Ledger.Exists;
    if p.InvoiceExpiredStep? {
      BillingAnswers.ExpireDealInvoiceIff(w.billing, p.d, p.now);
      hide ExpireDealInvoice;
    }
  }

  lemma StepExpires(w: World, s: Step, d: DealId)
    requires WorldInv(w) && !Expired(w, d) && Expired(After(w, s), d)
    ensures EndsOverdue(s, d, After(w, s).billing.invoices[d].dueAt)
  {
    hide WorldInv, BillingInv, ApplyCommand, ApplyDelivery, ApplyBilling, ApplyTrading;
    WorldParts(w);
    match s
    case Pay(p) => BillingStepExpires(w, p, d);
    case Deliver(v) =>
      DeliveryLeavesInvoices(w, v);
      assert false;
    case Trade(t) =>
      TradingLeavesPapers(w, t);
      assert false;
    case Command(c) => assert false;
  }

  // Over every run an invoice has expired only by a step whose clock had reached its due time.
  lemma {:induction false} ExpiredOnlyWhenDue(w: World, steps: seq<Step>, d: DealId)
    requires WorldInv(w) && !Expired(w, d) && Expired(Run(w, steps), d)
    ensures exists i | 0 <= i < |steps| :: EndsOverdue(steps[i], d, Run(w, steps).billing.invoices[d].dueAt)
  {
    hide After, WorldInv, SettlementSteps.Advances;
    var last := |steps| - 1;
    var before := Run(w, steps[..last]);
    SettlementRuns.RunKeeps(w, steps[..last]);
    if Expired(before, d) {
      ExpiredOnlyWhenDue(w, steps[..last], d);
      var i :| 0 <= i < last && EndsOverdue(steps[..last][i], d, before.billing.invoices[d].dueAt);
      SettlementRuns.StepKeeps(before, steps[last]);
      InvoiceKeepsDueTime(before, After(before, steps[last]), d);
      assert EndsOverdue(steps[i], d, Run(w, steps).billing.invoices[d].dueAt);
    } else {
      StepExpires(before, steps[last], d);
    }
  }

  lemma InvoiceKeepsDueTime(w: World, w': World, d: DealId)
    requires SettlementSteps.Advances(w, w') && d in w.billing.invoices
    ensures d in w'.billing.invoices && w'.billing.invoices[d].dueAt == w.billing.invoices[d].dueAt
  {
    assert InvoiceAdvances(w.billing.invoices[d], w'.billing.invoices[d]);
  }

  // ---------- bids with their deposits ----------

  lemma DealtAuctionIsWon(w: World, d: DealId)
    requires WorldInv(w) && d in w.deals.deals
    ensures w.deals.deals[d].auction in w.trading.auctions && w.trading.auctions[w.deals.deals[d].auction].state == AuctionDomain.Won
  {
    hide DealsInv, BillingInv, TradingInvariants.TradingInv, AuctionDomain.Candidates;
    WorldParts(w);
    CustomerIsCandidate(w.deals, d);
    assert SelectionAnnounced(w.trading, w.deals.selections[w.deals.deals[d].auction]);
  }

  lemma HeldWhilePublished(w: World, k: DepositKey)
    requires WorldInv(w) && k in w.billing.deposits
    requires k.auction in w.trading.auctions && w.trading.auctions[k.auction].state == AuctionDomain.Published
    ensures w.billing.deposits[k].status == HELD
  {
    hide DealsInv, BillingInv, TradingInvariants.TradingInv, AuctionDomain.Candidates;
    WorldParts(w);
    assert EndExplained(w.trading, w.billing, w.deals, k);
    if Forfeited(w.deals, k) {
      var d :| d in w.deals.deals && w.deals.deals[d].auction == k.auction && w.deals.deals[d].customer == k.company;
      DealtAuctionIsWon(w, d);
      assert false;
    }
    if Settled(w.billing, k.auction) {
      var d :| d in w.billing.payouts && w.billing.payouts[d].auction == k.auction;
      SettlementSteps.SettledAuctionIsWon(w, d);
      assert false;
    }
  }

  // A bid is taken exactly if the auction allows it and its bidder has bid there before or can pay the deposit.
  lemma BidStepIff(w: World, a: AuctionId, bidder: CompanyId, amount: int, placedAt: Time, at: Time)
    requires WorldInv(w)
    ensures ApplyBid(w, a, bidder, amount, placedAt, at).Ok?
            <==> && TradingAnswers.BidAllowed(w.trading, a, bidder, amount, placedAt)
                 && (|| HasBid(w.trading, a, bidder)
                     || (&& w.trading.auctions[a].startPrice > 0 && bidder in w.billing.accounts
                         && w.billing.accounts[bidder].available >= BillingAnswers.DepositAsked(w.trading.auctions[a].startPrice)))
  {
    hide WorldInv, BillingInv, TradingInvariants.TradingInv, PlaceBid, ReserveForBid, HasBid, TradingAnswers.Loads;
    WorldParts(w);
    TradingAnswers.PlaceBidIff(w.trading, a, bidder, amount, placedAt, at);
    var k := DepositKey(a, bidder);
    assert k in w.billing.deposits <==> HasBid(w.trading, k.auction, k.company);
    if TradingAnswers.BidAllowed(w.trading, a, bidder, amount, placedAt) {
      AllowedMeans(w.trading, a, bidder, amount, placedAt);
      BillingAnswers.ReserveForBidIff(w.billing, bidder, a, w.trading.auctions[a].startPrice);
      if k in w.billing.deposits {
        HeldWhilePublished(w, k);
      }
    }
  }

  lemma AllowedMeans(ts: Trading, a: AuctionId, bidder: CompanyId, amount: int, placedAt: Time)
    requires TradingInvariants.TradingInv(ts) && TradingAnswers.BidAllowed(ts, a, bidder, amount, placedAt)
    ensures a in ts.auctions && ts.auctions[a].state == AuctionDomain.Published && a != NO_ID && bidder != NO_ID
  {
    assert TradingInvariants.AuctionOk(ts, a);
    hide TradingInvariants.IsReplay;
  }
}
