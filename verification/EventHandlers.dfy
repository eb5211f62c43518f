/**
 The subscribers of the integration process, each running its use cases inside transactions. Every handler is proved to
 take exactly the step of Settlement that its event stands for: it commits that step's state and returns nil, or leaves
 everything as it was and returns that step's error.
 */
module EventHandlers {
  import opened Common
  import opened Wallet
  import opened TradingRules
  import opened BillingRules
  import opened DealDomain
  import opened DealsRules
  import opened Settlement
  import TradingStore
  import BillingStore
  import DealsStore

  // What a handler that is one transaction promises.
  predicate Took(w: World, v: Delivery, err: Option<Error>, w': World) {
    Emitted(w, v) ==> err == ApplyDelivery(w, v).Failure() && w' == Or(ApplyDelivery(w, v), w)
  }

  class Runtime {
    const trading: TradingStore.Store
    const billing: BillingStore.Store
    const deals: DealsStore.Store

    constructor (trading: TradingStore.Store, billing: BillingStore.Store, deals: DealsStore.Store)
      ensures this.trading == trading && this.billing == billing && this.deals == deals
    {
      this.trading, this.billing, this.deals := trading, billing, deals;
    }

    function Value(): World
      reads trading, billing, deals
    {
      World(trading.State(), billing.State(), deals.State())
    }

    // trading.AuctionWon: open the selection, tell the catalog, free the losers' deposits. Each is its own transaction,
    // so a later failure does not undo an earlier one.
    method AuctionWon(won: Posted, newDeal: DealId, catalogAnswers: bool) returns (err: Option<Error>)
      requires won in trading.outbox && won.event.AuctionWon?
      modifies billing, deals
      ensures var w := old(Value());
              var first := ApplyDelivery(w, OpenSelection(won, newDeal));
              if won.event.winners == [] then err == Some(ErrEmptyWinners) && Value() == w
              else if first.Err? then err == Some(first.error) && Value() == w
              else if !catalogAnswers then err == Some(ErrCatalogSync) && Value() == first.value
              else
                var released := InBilling(first.value, ReleaseAuctionDepositsExceptCandidates(w.billing, won.event.auction, won.event.winners));
                err == released.Failure() && Value() == Or(released, first.value)
    {
      hide BillingRules.ReleaseAuctionDepositsExceptCandidates, CreateDealSelection;
      var e := won.event;
      if e.winners == [] { return Some(ErrEmptyWinners); }
      var before := deals.State();
      err := deals.CreateDealSelectionFromAuctionWon(e.auction, e.winners, e.finalPrice, won.at, newDeal);
      if err.Some? {
        deals.Restore(before);
        return;
      }
      if !catalogAnswers { return Some(ErrCatalogSync); }
      var money := billing.State();
      err := billing.ReleaseAuctionDepositsExceptCandidates(e.auction, e.winners);
      if err.Some? {
        billing.Restore(money);
      }
    }

    method WinnerRejected(e: DealEvent) returns (err: Option<Error>)
      requires e.WinnerRejected?
      modifies billing
      ensures Took(old(Value()), RejectedWinner(e), err, Value())
    {
      hide BillingRules.CaptureAuctionDeposit;
      var money := billing.State();
      err := billing.CaptureAuctionDeposit(e.company, e.auction);
      if err.Some? {
        billing.Restore(money);
      }
    }

    // The event carries no auction, so the use case looks it up by the deal. A deal cancelled for a payment timeout is
    // taken to have fallen back already, and a selection without a next winner is no error.
    method DealCancelled(e: DealEvent, newDeal: DealId) returns (err: Option<Error>)
      requires e.DealCancelled?
      modifies deals
      ensures Took(old(Value()), CancelledDeal(e, newDeal), err, Value())
    {
      hide DealsRules.HandleDealDeclined;
      if e.reason == PaymentTimeout { return None; }
      var before := deals.State();
      err := deals.HandleDealDeclined(NO_ID, e.deal, newDeal);
      if err.Some? {
        deals.Restore(before);
        if err == Some(ErrNoAvailableWinner) { return None; }
      }
    }

    method PaymentRequested(e: DealEvent, now: Time, providerAnswers: bool) returns (err: Option<Error>)
      requires e.PaymentRequestedEvent?
      modifies billing
      ensures Took(old(Value()), RequestedPayment(e, now, providerAnswers), err, Value())
    {
      hide BillingRules.CreateDealInvoice;
      var money := billing.State();
      err := billing.CreateDealInvoice(InvoiceCommand(e.deal, e.auction, e.buyer, e.seller, e.goods, e.dueAt), now, providerAnswers);
      if err.Some? {
        billing.Restore(money);
      }
    }

    method DealInvoicePaid(e: BillingEvent) returns (err: Option<Error>)
      requires e.DealInvoicePaid?
      modifies deals
      ensures Took(old(Value()), PaidInvoice(e), err, Value())
    {
      hide DealsRules.HandleDealInvoicePaid;
      var before := deals.State();
      err := deals.HandleDealInvoicePaid(e.deal, e.auction, e.buyer, e.goods, e.feeDue, e.amount);
      if err.Some? {
        deals.Restore(before);
      }
    }

    method DealInvoiceExpired(e: BillingEvent, newDeal: DealId) returns (err: Option<Error>)
      requires e.DealInvoiceExpired?
      modifies deals
      ensures Took(old(Value()), ExpiredInvoice(e, newDeal), err, Value())
    {
      hide DealsRules.HandleDealInvoiceExpired;
      var before := deals.State();
      err := deals.HandleDealInvoiceExpired(e.deal, e.auction, e.buyer, newDeal);
      if err.Some? {
        deals.Restore(before);
      }
    }

    // deals.WinnerSelectionFinalized: one transaction over the invoice check, the settlement, the release and the payout.
    method WinnerSelectionFinalized(e: DealEvent) returns (err: Option<Error>)
      requires e.WinnerSelectionFinalized?
      modifies billing
      ensures Took(old(Value()), FinalizedSelection(e), err, Value())
    {
      var money := billing.State();
      err := Finalize(e);
      if err.Some? {
        billing.Restore(money);
      }
    }

    method Finalize(e: DealEvent) returns (err: Option<Error>)
      requires e.WinnerSelectionFinalized?
      modifies billing
      ensures BillingStore.Committed(FinalizeAuction(old(billing.State()), PayoutCommand(e.deal, e.auction, e.company, e.goods, e.feeDue)),
                                     err, billing.State())
    {
      hide BillingRules.SettleWinnerDeposit, BillingRules.ReleaseAuctionDepositsExceptCandidates, BillingRules.CreateSellerPayout;
      if e.deal !in billing.invoices { return Some(ErrDealInvoiceNotFound); }
      var invoice := billing.invoices[e.deal];
      if invoice.status != InvoicePaid { return Some(ErrInvoiceNotPayable); }
      if invoice.auction != e.auction || invoice.buyer != e.company { return Some(ErrSellerPayoutInvoiceMismatch); }
      if invoice.goods != e.goods || invoice.feeDue != e.feeDue { return Some(ErrSellerPayoutInvoiceMismatch); }
      err := billing.SettleWinnerDeposit(e.auction, e.company, e.goods, e.feeDue);
      if err.Some? { return; }
      err := billing.ReleaseAuctionDepositsExceptCandidates(e.auction, [e.company]);
      if err.Some? { return; }
      err := billing.CreateSellerPayout(PayoutCommand(e.deal, e.auction, e.company, e.goods, e.feeDue));
    }
  }
}
