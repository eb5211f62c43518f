/** What every reachable state of the running system guarantees. */
module SettlementTheorems {
  import opened Common
  import opened Wallet
  import opened Ledger
  import opened BillingRules
  import opened BillingInvariants
  import opened DealDomain
  import opened DealsRules
  import opened DealsInvariants
  import opened DealsOutcomes
  import opened DealsProgress
  import opened Settlement
  import opened SettlementInvariants
  import opened SettlementSteps
  import opened SettlementRuns
  import Money
  import AuctionDomain
  import AuctionRuns
  import TradingRules
  import TradingInvariants
  import BillingOutcomes
  import SelectionDomain

  // ---------- durable idempotence ----------

  // The fact that a successful delivery establishes.
  predicate Done(w: World, v: Delivery)
    requires Emitted(w, v)
  {
    match v
    case OpenSelection(won, _) => won.event.auction in w.deals.selections
    case ReleaseLosers(won) => LosersFree(w.billing, won.event.auction, won.event.winners)
    case CancelledDeal(e, _) => e.reason == PaymentTimeout || Passed(w.deals, e.deal)
    case RejectedWinner(e) =>
      var k := DepositKey(e.auction, e.company);
      k in w.billing.deposits && w.billing.deposits[k].status == CAPTURED
    case RequestedPayment(e, _, _) => e.deal in w.billing.invoices
    case PaidInvoice(e) => e.deal in w.deals.deals && !PrePaid(w.deals.deals[e.deal].status)
    case ExpiredInvoice(e, _) => e.deal in w.deals.deals && !PrePaid(w.deals.deals[e.deal].status)
    case FinalizedSelection(e) => e.deal in w.billing.payouts
  }

  // Two deliveries of one event; generated ids, clock and payment provider may differ.
  predicate SameEvent(v: Delivery, again: Delivery) {
    match v
    case OpenSelection(won, _) => again.OpenSelection? && again.won == won
    case CancelledDeal(e, _) => again.CancelledDeal? && again.event == e
    case RequestedPayment(e, _, _) => again.RequestedPayment? && again.event == e
    case ExpiredInvoice(e, _) => again.ExpiredInvoice? && again.answer == e
    case _ => again == v
  }

  // Nothing has changed, outboxes included; only a repeated cancellation may announce once more that its auction's
  // selection has failed.
  predicate NothingNew(w: World, v: Delivery, w': World) {
    || w' == w
    || (&& v.CancelledDeal? && v.event.DealCancelled? && v.event.deal in w.deals.deals
        && w' == w.(deals := FailedAgain(w.deals, w.deals.deals[v.event.deal].auction)))
  }

  function FailedAgain(ds: Deals, a: AuctionId): Deals {
    ds.(outbox := ds.outbox + [WinnerSelectionFailed(a)])
  }

  lemma CancelledDealDone(ds: Deals, d: DealId, reason: CancelReason, newDeal: DealId)
    requires DealsInv(ds) && d in ds.deals && newDeal != NO_ID && newDeal !in ds.deals
    requires OnDealCancelled(ds, d, reason, newDeal).Ok?
    ensures reason == PaymentTimeout || Passed(OnDealCancelled(ds, d, reason, newDeal).value, d)
  {
    DealsParts(ds);
    assert DealOk(ds, d);
    if reason != PaymentTimeout {
      DeclineSucceedsIff(ds, d, newDeal);
      var r := HandleDealDeclined(ds, NO_ID, d, newDeal);
      if r != Err(ErrNoAvailableWinner) {
        HandleDealDeclinedOutcome(ds, NO_ID, d, newDeal);
        FellBackPasses(ds, r.value, ds.deals[d].auction, newDeal, d);
      }
    }
    hide DealsInv, HandleDealDeclined;
  }

  lemma ExpiredInvoiceDone(w: World, e: BillingEvent, newDeal: DealId)
    requires WorldInv(w) && e in w.billing.outbox && e.DealInvoiceExpired? && FreshDeal(w, newDeal)
    requires HandleDealInvoiceExpired(w.deals, e.deal, e.auction, e.buyer, newDeal).Ok?
    ensures var ds' := HandleDealInvoiceExpired(w.deals, e.deal, e.auction, e.buyer, newDeal).value;
            e.deal in ds'.deals && !PrePaid(ds'.deals[e.deal].status)
  {
    WorldParts(w);
    assert EventBacked(w.billing, e);
    assert InvoiceMatchesDeal(w.billing, w.deals, e.deal);
    HandleDealInvoiceExpiredOutcome(w.deals, e.deal, e.auction, e.buyer, newDeal);
    hide HandleDealInvoiceExpired;
  }

  lemma CancelledDealKnown(w: World, e: DealEvent)
    requires WorldInv(w) && e in w.deals.outbox && e.DealCancelled?
    ensures DealsInv(w.deals) && e.deal in w.deals.deals
  {
    WorldParts(w);
    DealsParts(w.deals);
    assert DealEventOk(w.deals, e);
  }

  lemma DeliveryDoes(w: World, v: Delivery)
    requires WorldInv(w) && Enabled(w, Deliver(v)) && ApplyDelivery(w, v).Ok?
    ensures Emitted(ApplyDelivery(w, v).value, v) && Done(ApplyDelivery(w, v).value, v)
  {
    hide Advances, Passed, DealsInv, LosersFree, Settled, Forfeited, CreateDealSelection, OnDealCancelled,
         HandleDealInvoicePaid, HandleDealInvoiceExpired,
         ReleaseAuctionDepositsExceptCandidates, CaptureAuctionDeposit, CreateDealInvoice, FinalizeAuction;
    StepKeeps(w, Deliver(v));
    EmittedStays(w, ApplyDelivery(w, v).value, v);
    match v
    case OpenSelection(won, newDeal) => OpenSelectionKeeps(w, won, newDeal);
    case ReleaseLosers(won) => ReleaseLosersKeeps(w, won);
    case CancelledDeal(e, newDeal) =>
      CancelledDealKnown(w, e);
      CancelledDealDone(w.deals, e.deal, e.reason, newDeal);
    case RejectedWinner(e) => RejectedWinnerOutcome(w, e);
    case RequestedPayment(e, now, providerAnswers) => RequestedPaymentKeeps(w, e, now, providerAnswers);
    case PaidInvoice(e) => PaidInvoiceKeeps(w, e);
    case ExpiredInvoice(e, newDeal) => ExpiredInvoiceDone(w, e, newDeal);
    case FinalizedSelection(e) => FinalizeKeeps(w, e);
  }

  lemma EmittedStays(w: World, w': World, v: Delivery)
    requires Advances(w, w') && Emitted(w, v)
    ensures Emitted(w', v)
  {
    assert w.trading.outbox <= w'.trading.outbox && w.billing.outbox <= w'.billing.outbox && w.deals.outbox <= w'.deals.outbox;
    hide Advances;
  }

  lemma LosersStayFree(w: World, w': World, won: TradingRules.Posted)
    requires WorldInv(w) && WorldInv(w') && Advances(w, w') && won in w.trading.outbox && won.event.AuctionWon?
    requires LosersFree(w.billing, won.event.auction, won.event.winners)
    ensures LosersFree(w'.billing, won.event.auction, won.event.winners)
  {
    WorldParts(w);
    WorldParts(w');
    var a := won.event.auction;
    WonIsAnnounced(w, won);
    assert TradingInvariants.AuctionAdvances(w.trading, w'.trading, a);
    assert DepositsMatchBids(w.trading, w.billing) && DepositsMatchBids(w'.trading, w'.billing) && BillingAdvances(w.billing, w'.billing);
    hide Advances, TradingInvariants.TradingAdvances, Sum;
    forall k | k in w'.billing.deposits && k.auction == a && k.company !in won.event.winners
      ensures w'.billing.deposits[k].status != HELD
    {
      assert HasBid(w'.trading, k.auction, k.company) && HasBid(w.trading, k.auction, k.company);
      assert DepositAdvances(w.billing, w'.billing, k);
    }
  }

  lemma DepositStays(b: Billing, b': Billing, k: DepositKey)
    requires BillingAdvances(b, b') && k in b.deposits && b.deposits[k].status != HELD
    ensures k in b'.deposits && b'.deposits[k] == b.deposits[k]
  {
    hide Sum;
    assert DepositAdvances(b, b', k);
  }

  lemma PaymentStays(ds: Deals, ds': Deals, d: DealId)
    requires DealsAdvances(ds, ds') && d in ds.deals && !PrePaid(ds.deals[d].status)
    ensures d in ds'.deals && !PrePaid(ds'.deals[d].status)
  {
    assert DealAdvances(ds.deals[d], ds'.deals[d]);
  }

  lemma RowsStay(w: World, w': World)
    requires Advances(w, w')
    ensures w.deals.selections.Keys <= w'.deals.selections.Keys
    ensures w.billing.invoices.Keys <= w'.billing.invoices.Keys && w.billing.payouts.Keys <= w'.billing.payouts.Keys
    ensures BillingAdvances(w.billing, w'.billing) && DealsAdvances(w.deals, w'.deals)
  {
    hide Sum, Live;
  }

  lemma DoneStays(w: World, w': World, v: Delivery)
    requires WorldInv(w) && WorldInv(w') && Advances(w, w') && Emitted(w, v) && Done(w, v)
    ensures Emitted(w', v) && Done(w', v)
  {
    hide Advances, Passed, LosersFree, BillingAdvances, DealsAdvances;
    EmittedStays(w, w', v);
    RowsStay(w, w');
    match v
    case ReleaseLosers(won) => LosersStayFree(w, w', won);
    case CancelledDeal(e, _) => if e.reason != PaymentTimeout { PassedStays(w.deals, w'.deals, e.deal); }
    case RejectedWinner(e) => DepositStays(w.billing, w'.billing, DepositKey(e.auction, e.company));
    case PaidInvoice(e) => PaymentStays(w.deals, w'.deals, e.deal);
    case ExpiredInvoice(e, _) => PaymentStays(w.deals, w'.deals, e.deal);
    case OpenSelection(won, _) => assert won.event.auction in w.deals.selections.Keys;
    case RequestedPayment(e, _, _) => assert e.deal in w.billing.invoices.Keys;
    case FinalizedSelection(e) => assert e.deal in w.billing.payouts.Keys;
  }

  lemma LeftBehindUnlessFinalized(ds: Deals, d: DealId, newDeal: DealId)
    requires DealsInv(ds) && d in ds.deals && newDeal != NO_ID && Passed(ds, d)
    requires HandleDealDeclined(ds, NO_ID, d, newDeal).Ok?
    ensures ds.deals[d].auction in ds.selections && ds.selections[ds.deals[d].auction].status == SelectionDomain.Finalized
  {
    DeclineSucceedsIff(ds, d, newDeal);
    var sel := ds.selections[ds.deals[d].auction];
    hide DealsInv, HandleDealDeclined, Passed;
    if sel.status != SelectionDomain.Finalized {
      StillCurrent(ds, d);
    }
  }

  // Declining a deal that was left behind can only announce the end of a finalized selection once more.
  lemma DeclineLeftBehind(ds: Deals, d: DealId, newDeal: DealId)
    requires DealsInv(ds) && d in ds.deals && newDeal != NO_ID && newDeal !in ds.deals && Passed(ds, d)
    requires HandleDealDeclined(ds, NO_ID, d, newDeal).Ok?
    ensures HandleDealDeclined(ds, NO_ID, d, newDeal) == Ok(FailedAgain(ds, ds.deals[d].auction))
  {
    hide DealsInv, HandleDealDeclined, Passed, Fallback;
    var a := ds.deals[d].auction;
    LeftBehindUnlessFinalized(ds, d, newDeal);
    HandleDealDeclinedFallsBack(ds, NO_ID, d, newDeal);
    SelectionShaped(ds, a);
    FallbackValue(ds, a, newDeal);
    var ds' := HandleDealDeclined(ds, NO_ID, d, newDeal).value;
    assert ds'.selections == ds.selections;
  }

  lemma CancellationIdle(ds: Deals, d: DealId, reason: CancelReason, newDeal: DealId)
    requires DealsInv(ds) && d in ds.deals && newDeal != NO_ID && newDeal !in ds.deals
    requires reason == PaymentTimeout || Passed(ds, d)
    requires OnDealCancelled(ds, d, reason, newDeal).Ok?
    ensures OnDealCancelled(ds, d, reason, newDeal).value in {ds, FailedAgain(ds, ds.deals[d].auction)}
  {
    if reason != PaymentTimeout && HandleDealDeclined(ds, NO_ID, d, newDeal).Ok? {
      DeclineLeftBehind(ds, d, newDeal);
    }
    hide DealsInv, HandleDealDeclined;
  }

  lemma ExpiredAnswerIdle(ds: Deals, e: BillingEvent, newDeal: DealId)
    requires DealsInv(ds) && e.DealInvoiceExpired? && newDeal != NO_ID && newDeal !in ds.deals
    requires e.deal in ds.deals && !PrePaid(ds.deals[e.deal].status)
    requires HandleDealInvoiceExpired(ds, e.deal, e.auction, e.buyer, newDeal).Ok?
    ensures HandleDealInvoiceExpired(ds, e.deal, e.auction, e.buyer, newDeal).value == ds
  {
    hide DealsInv;
    HandleDealInvoiceExpiredOutcome(ds, e.deal, e.auction, e.buyer, newDeal);
    hide HandleDealInvoiceExpired, FellBack, Continues;
  }

  lemma CaptureOnce(b: Billing, company: CompanyId, a: AuctionId)
    requires var k := DepositKey(a, company); k in b.deposits && b.deposits[k].status == CAPTURED
    requires CaptureAuctionDeposit(b, company, a).Ok?
    ensures CaptureAuctionDeposit(b, company, a) == Ok(b)
  {
  }

  lemma InvoiceOnce(b: Billing, cmd: InvoiceCommand, now: Time, providerAnswers: bool)
    requires cmd.deal in b.invoices && CreateDealInvoice(b, cmd, now, providerAnswers).Ok?
    ensures CreateDealInvoice(b, cmd, now, providerAnswers) == Ok(b)
  {
  }

  lemma ReleaseOnce(b: Billing, a: AuctionId, winners: seq<CompanyId>)
    requires LosersFree(b, a, winners) && ReleaseAuctionDepositsExceptCandidates(b, a, winners).Ok?
    ensures ReleaseAuctionDepositsExceptCandidates(b, a, winners) == Ok(b)
  {
    ReleaseLoopIdle(b, a, winners, ListByAuction(b.deposits, a));
    hide ListByAuction;
  }

  lemma DoneIsIdle(w: World, v: Delivery)
    requires WorldInv(w) && Enabled(w, Deliver(v)) && Done(w, v) && ApplyDelivery(w, v).Ok?
    ensures NothingNew(w, v, ApplyDelivery(w, v).value)
  {
    hide DealsInv, BillingInv, TradingInvariants.TradingInv, Passed, LosersFree, Started, PaidFor, CreateDealSelection, OnDealCancelled,
         HandleDealInvoicePaid, HandleDealInvoiceExpired,
         ReleaseAuctionDepositsExceptCandidates, CaptureAuctionDeposit, CreateDealInvoice, FinalizeAuction;
    WorldParts(w);
    match v
    case OpenSelection(won, newDeal) =>
      WonIsAnnounced(w, won);
      CreateDealSelectionOutcome(w.deals, won.event.auction, won.event.winners, won.event.finalPrice, won.at, newDeal);
    case ReleaseLosers(won) => ReleaseOnce(w.billing, won.event.auction, won.event.winners);
    case CancelledDeal(e, newDeal) =>
      CancelledDealKnown(w, e);
      CancellationIdle(w.deals, e.deal, e.reason, newDeal);
    case RejectedWinner(e) => CaptureOnce(w.billing, e.company, e.auction);
    case RequestedPayment(e, now, providerAnswers) =>
      InvoiceOnce(w.billing, InvoiceCommand(e.deal, e.auction, e.buyer, e.seller, e.goods, e.dueAt), now, providerAnswers);
    case PaidInvoice(e) => PaidInvoiceOutcome(w, e);
    case ExpiredInvoice(e, newDeal) => ExpiredAnswerIdle(w.deals, e, newDeal);
    case FinalizedSelection(e) => FinalizeIsIdle(w, e);
  }

  // Once a subscriber has accepted an event, delivering that event again changes no table and emits nothing (but, for a
  // cancellation, that its auction's selection has failed), however much has happened in between.
  lemma DurableIdempotence(w: World, v: Delivery, steps: seq<Step>, again: Delivery)
    requires WorldInv(w) && Enabled(w, Deliver(v)) && Apply(w, Deliver(v)).Ok? && SameEvent(v, again)
    ensures var later := Run(After(w, Deliver(v)), steps);
            NothingNew(later, again, After(later, Deliver(again)))
  {
    var w1 := After(w, Deliver(v));
    var later := Run(w1, steps);
    hide Advances, Run, NothingNew;
    StepKeeps(w, Deliver(v));
    DeliveryDoes(w, v);
    RunKeeps(w1, steps);
    DoneStays(w1, later, v);
    if Enabled(later, Deliver(again)) && Apply(later, Deliver(again)).Ok? {
      assert Done(later, again);
      DoneIsIdle(later, again);
    } else {
      StillTheSame(later, again);
    }
  }

  lemma StillTheSame(w: World, v: Delivery)
    ensures NothingNew(w, v, w)
  {
  }

  // ---------- forfeiture, finalization and the money ----------

  lemma RejectedIsNotFinalized(ds: Deals, rejected: DealEvent, finalized: DealEvent)
    requires DealsInv(ds) && rejected in ds.outbox && finalized in ds.outbox
    requires rejected.WinnerRejected? && finalized.WinnerSelectionFinalized?
    ensures (rejected.auction, rejected.company) != (finalized.auction, finalized.company)
  {
    DealsParts(ds);
    assert DealEventOk(ds, rejected) && DealEventOk(ds, finalized);
    RejectedMeans(ds, rejected);
    FinalizedMeans(ds, finalized);
    assert Live(ds, finalized.deal);
    hide DealsInv, DealEventOk, Live, FinalizedOn;
    if (rejected.auction, rejected.company) == (finalized.auction, finalized.company) {
      OneDealPerCompany(ds, rejected.deal, finalized.deal);
    }
  }

  lemma RejectedMeans(ds: Deals, e: DealEvent)
    requires e.WinnerRejected? && DealEventOk(ds, e)
    ensures e.deal in ds.deals && ds.deals[e.deal].auction == e.auction && ds.deals[e.deal].customer == e.company && !Live(ds, e.deal)
  {
  }

  // No company is both rejected and finalized on one auction: a forfeited deal is never the finalized one.
  lemma RejectionExcludesFinalization(w: World, rejected: DealEvent, finalized: DealEvent)
    requires WorldInv(w) && rejected in w.deals.outbox && finalized in w.deals.outbox
    requires rejected.WinnerRejected? && finalized.WinnerSelectionFinalized?
    ensures (rejected.auction, rejected.company) != (finalized.auction, finalized.company)
  {
    hide DealsInv;
    WorldParts(w);
    RejectedIsNotFinalized(w.deals, rejected, finalized);
  }

  // From the moment a selection is finalized until its settlement, the winner's deposit is HELD with the amount the
  // start price asked for, whatever else is delivered.
  lemma FinalizedWinnerStaysHeld(w: World, e: DealEvent)
    requires WorldInv(w) && e in w.deals.outbox && e.WinnerSelectionFinalized? && e.deal !in w.billing.payouts
    ensures var k := DepositKey(e.auction, e.company);
            && k in w.billing.deposits && w.billing.deposits[k].status == HELD && e.auction in w.trading.auctions
            && w.billing.deposits[k].amount == Money.DepositFromStartPrice(w.trading.auctions[e.auction].startPrice)
  {
    FinalizedFacts(w, e);
    LiveDealKeepsDeposit(w, e.deal);
  }

  // So its settlement never fails; in particular the fee the invoice charged always matches. It happens once.
  lemma SettlementNeverFails(w: World, e: DealEvent)
    requires WorldInv(w) && e in w.deals.outbox && e.WinnerSelectionFinalized?
    ensures var r := FinalizeAuction(w.billing, PayoutFor(e));
            r.Ok? && (if e.deal in w.billing.payouts then r.value == w.billing else BillingOutcomes.AuctionSettled(w.billing, r.value, PayoutFor(e)))
  {
    hide FinalizeAuction, BillingOutcomes.AuctionSettled;
    if e.deal in w.billing.payouts {
      FinalizeIsIdle(w, e);
    } else {
      FinalizeSettles(w, e);
    }
  }

  // The money of a settled auction: what the buyer paid by invoice and by deposit is the goods plus the whole fee,
  // the rest of the deposit went back, the seller is owed the goods, no other payout exists for the auction,
  // and none of its deposits is HELD any more.
  lemma BuyerPaysGoodsAndFee(w: World, d: DealId)
    requires WorldInv(w) && d in w.billing.payouts
    ensures var b := w.billing;
            var p := b.payouts[d];
            && d in b.invoices && b.invoices[d].status == InvoicePaid
            && var i, k := b.invoices[d], DepositKey(p.auction, p.buyer);
               var captured, released := Sum(CapturedFor(k.auction, k.company), b.ledger), Sum(ReleasedFor(k.auction, k.company), b.ledger);
               && k in b.deposits
               && i.total + captured == i.goods + Money.PlatformFee(i.goods)
               && captured + released == b.deposits[k].amount
               && p.amount == i.goods && p.seller == i.seller && p.buyer == i.buyer
               && (forall q | q in b.payouts && b.payouts[q].auction == p.auction :: q == d)
               && (forall q | q in b.deposits && q.auction == p.auction :: b.deposits[q].status != HELD)
  {
    hide Sum, Money.PlatformFee, Live, FinalizedOn;
    var b := w.billing;
    PayoutFacts(w, d);
    forall q | q in b.payouts && b.payouts[q].auction == b.payouts[d].auction
      ensures q == d
    {
      OnePayoutPerAuction(w, d, q);
    }
  }

  lemma PayoutFacts(w: World, d: DealId)
    requires WorldInv(w) && d in w.billing.payouts
    ensures d in w.billing.invoices && PayoutSettled(w.billing, w.deals, d) && PayoutAudited(w.billing, d)
    ensures InvoiceWellFormed(d, w.billing.invoices[d]) && InvoiceMatchesDeal(w.billing, w.deals, d) && Live(w.deals, d)
  {
    WorldParts(w);
    assert PayoutSettled(w.billing, w.deals, d) && PayoutAudited(w.billing, d);
    assert FinalizedOn(w.deals, d);
  }

  lemma OnePayoutPerAuction(w: World, d: DealId, q: DealId)
    requires WorldInv(w) && d in w.billing.payouts && q in w.billing.payouts
    requires w.billing.payouts[q].auction == w.billing.payouts[d].auction
    ensures q == d
  {
    WorldParts(w);
    assert PayoutSettled(w.billing, w.deals, d) && PayoutSettled(w.billing, w.deals, q);
    assert FinalizedOn(w.deals, d) && FinalizedOn(w.deals, q);
  }

  // ---------- what deliveries can fail of ----------

  // Opening an invoice never follows a missing deposit row: every buyer has bid, and every bid reserved a deposit.
  lemma InvoiceNeverFollowsNil(w: World, e: DealEvent, now: Time, providerAnswers: bool)
    requires WorldInv(w) && e in w.deals.outbox && e.PaymentRequestedEvent?
    ensures CreateDealInvoice(w.billing, InvoiceCommand(e.deal, e.auction, e.buyer, e.seller, e.goods, e.dueAt),
                              now, providerAnswers) != Err(ErrNilDereference)
  {
    RequestedPaymentFacts(w, e);
  }

  // ---------- the invariants, read off any good state ----------

  // Held money is exactly the company's HELD deposits, the ledger explains both balances, and what the company owns is
  // what came in by top-ups and payouts minus what was captured.
  lemma BooksBalance(w: World, c: CompanyId)
    requires WorldInv(w)
    ensures var b := w.billing;
            && BalanceOf(b, c).held == HeldSum(b.deposits, c)
            && BalanceOf(b, c).available == Sum(Available(c), b.ledger)
            && BalanceOf(b, c).held == Sum(OnHold(c), b.ledger)
            && BalanceOf(b, c).Total() == MoneyIn(c, b.ledger) - MoneyOut(c, b.ledger)
  {
    hide Sum, HeldSum;
    WorldParts(w);
    InMinusOut(c, w.billing.ledger);
  }

  // A deposit keeps its amount; once it has left HELD it never changes again, and its ledger lines give back and keep
  // exactly its amount, as its status says.
  lemma DepositLifecycle(w: World, steps: seq<Step>, k: DepositKey)
    requires WorldInv(w) && k in w.billing.deposits
    ensures var d, b' := w.billing.deposits[k], Run(w, steps).billing;
            && k in b'.deposits && b'.deposits[k].amount == d.amount
            && (d.status != HELD ==>
                  && b'.deposits[k] == d
                  && Sum(ReleasedFor(k.auction, k.company), b'.ledger) + Sum(CapturedFor(k.auction, k.company), b'.ledger) == d.amount
                  && (d.status == RELEASED <==> Sum(CapturedFor(k.auction, k.company), b'.ledger) == 0)
                  && (d.status == CAPTURED <==> Sum(ReleasedFor(k.auction, k.company), b'.ledger) == 0))
  {
    hide Sum, Advances;
    RunKeeps(w, steps);
    AuditedDeposit(w, Run(w, steps), k);
  }

  lemma AuditedDeposit(w: World, w': World, k: DepositKey)
    requires WorldInv(w') && Advances(w, w') && k in w.billing.deposits
    ensures DepositAdvances(w.billing, w'.billing, k) && DepositAudited(w'.billing, k)
  {
    WorldParts(w');
    hide Sum, DepositAdvances;
  }

  // A payout is credited to its seller exactly once, in full, and exactly when it is PAID.
  lemma PayoutCreditedOnce(w: World, d: DealId)
    requires WorldInv(w)
    ensures var b := w.billing;
            && Sum(CreditLines(d), b.ledger) == (if d in b.payouts && b.payouts[d].status == PayoutPaid then 1 else 0)
            && Sum(CreditedFor(d), b.ledger) == (if d in b.payouts && b.payouts[d].status == PayoutPaid then b.payouts[d].amount else 0)
            && (d in b.payouts ==> (b.payouts[d].status == PayoutPaid <==> Exists(b.ledger, CreditKey(b.payouts[d]))))
  {
    hide Sum, Exists;
    var b := w.billing;
    WorldParts(w);
    assert PayoutAudited(b, d);
    if d in b.payouts {
      BillingOutcomes.PaidMeansCredited(b, d);
    }
  }

  // The deals of an auction follow its ranking one by one, at most one per candidate, and at most one is not cancelled.
  lemma DealsFollowRanking(w: World, a: AuctionId)
    requires WorldInv(w) && a in w.deals.selections
    ensures var ds := w.deals;
            var attempts, sel := Attempts(ds.outbox, a), ds.selections[a];
            && |attempts| == sel.currentIndex + 1 <= |sel.candidates|
            && (forall k | 0 <= k < |attempts| ::
                  attempts[k] in ds.deals && ds.deals[attempts[k]].customer == sel.candidates[k]
                  && (ds.deals[attempts[k]].status != Cancelled ==> sel.deal == attempts[k]))
            && (forall d | d in ds.deals && ds.deals[d].auction == a :: d in attempts)
            && (sel.status == SelectionDomain.Exhausted <==> sel.deal == NO_ID)
  {
    hide DealsInv, Attempts;
    WorldParts(w);
    FallbackFollowsRanking(w.deals, a);
    SelectionShaped(w.deals, a);
  }

  lemma SelectionShaped(ds: Deals, a: AuctionId)
    requires DealsInv(ds) && a in ds.selections
    ensures SelectionShape(ds.selections[a], a)
  {
    DealsParts(ds);
    assert SelectionOk(ds, a);
  }

  // What a subscriber accepted stays accomplished.
  lemma AcceptedStaysDone(w: World, v: Delivery, steps: seq<Step>)
    requires WorldInv(w) && Enabled(w, Deliver(v)) && Apply(w, Deliver(v)).Ok?
    ensures var later := Run(After(w, Deliver(v)), steps); Emitted(later, v) && Done(later, v)
  {
    hide Advances, Run, Done, Emitted;
    var w1 := After(w, Deliver(v));
    StepKeeps(w, Deliver(v));
    DeliveryDoes(w, v);
    RunKeeps(w1, steps);
    DoneStays(w1, Run(w1, steps), v);
  }

  // An announced result follows from the stored bids alone: the winners are the distinct bidders of the last three bids,
  // in the order of their latest ones, so the first is the leader; and the final price is the last bid, not below the
  // start price.
  lemma AnnouncedResult(w: World, won: TradingRules.Posted)
    requires WorldInv(w) && won in w.trading.outbox && won.event.AuctionWon?
    ensures var ts, e := w.trading, won.event;
            && e.auction in ts.auctions && ts.auctions[e.auction].state == AuctionDomain.Won
            && var bids, row := TradingRules.BidsOf(ts, e.auction), ts.auctions[e.auction];
               && bids != []
               && e.winners != [] && Distinct(e.winners)
               && (forall c :: c in e.winners <==> AuctionRuns.AmongLastThree(bids, c))
               && (forall x, y, i: nat, j: nat | && 0 <= x < y < |e.winners| && AuctionRuns.Latest(bids, i, e.winners[x])
                                                 && AuctionRuns.Latest(bids, j, e.winners[y]) :: i > j)
               && e.winners[0] == row.leader == bids[|bids| - 1].bidder
               && e.finalPrice == row.currentPrice == bids[|bids| - 1].amount && e.finalPrice >= row.startPrice && e.finalPrice > 0
  {
    hide TradingInvariants.TradingInv;
    WorldParts(w);
    TradingInvariants.WonFacts(w.trading, won);
    WonIsAnnounced(w, won);
    WonHasBids(w.trading, won.event.auction);
    AuctionRuns.WinnersAreLastThree(TradingRules.BidsOf(w.trading, won.event.auction));
    hide AuctionDomain.Candidates, AuctionRuns.AmongLastThree, AuctionRuns.Latest;
  }

  lemma WonHasBids(ts: TradingRules.Trading, a: AuctionId)
    requires TradingInvariants.TradingInv(ts) && a in ts.auctions && ts.auctions[a].state == AuctionDomain.Won
    ensures var row, bids := ts.auctions[a], TradingRules.BidsOf(ts, a);
            && bids != [] && (forall b | b in bids :: AuctionDomain.ValidBid(b))
            && row.leader == bids[|bids| - 1].bidder && row.currentPrice == bids[|bids| - 1].amount
  {
    assert TradingInvariants.AuctionOk(ts, a);
    var row, bids := ts.auctions[a], TradingRules.BidsOf(ts, a);
    var scheduled :| row.startsAt < scheduled
                     && AuctionRuns.Replay(TradingInvariants.Opening(row, scheduled), bids) == Ok(row.(state := AuctionDomain.Published));
    AuctionRuns.RunLaws(TradingInvariants.Opening(row, scheduled), bids);
  }

  // An external payment is credited by exactly one ledger line if it was processed and by none otherwise. A top-up has
  // succeeded exactly when its payment was processed, and then that line credits its company with exactly its amount.
  lemma TopUpCreditedOnce(w: World, p: PaymentId)
    requires WorldInv(w)
    ensures var b := w.billing;
            && Sum(TopUpLines(p), b.ledger) == (if p in b.processed then 1 else 0)
            && (p in b.topUps ==> (b.topUps[p].status == TopUpSucceeded <==> p in b.processed))
            && (p in b.topUps && b.topUps[p].status == TopUpSucceeded ==>
                  Sum(ToppedUp(p, b.topUps[p].company), b.ledger) == b.topUps[p].amount)
  {
    hide Sum;
    WorldParts(w);
  }
}
