/**
 Deposits that are still HELD when their auction is over: cancelled with bids, or out of candidates. Losers' deposits are
 given back in the second transaction of the subscriber to AuctionWon, which is reached only while the first one can open
 the selection; nothing gives back those of a cancelled auction, or of a candidate whose deal was cancelled without a
 forfeiture.
 */
module ForgottenDeposits {
  import opened Common
  import opened Wallet
  import opened AuctionDomain
  import opened BillingRules
  import opened BillingInvariants
  import opened DealDomain
  import opened DealsRules
  import opened DealsInvariants
  import opened DealsOutcomes
  import opened Settlement
  import opened SettlementInvariants
  import opened SettlementSteps
  import opened SettlementRuns
  import TradingRules
  import TradingInvariants
  import BillingOutcomes
  import SelectionDomain
  import DealsProgress
  import SettlementTheorems
  import Ledger
  import Money
  import AuctionRuns

  // The first transaction commits, and the release is reached, exactly if the auction is projected to deals and its
  // selection has not run out; to open a selection the projection must name a seller and a product.
  lemma OpeningSucceedsIff(w: World, won: TradingRules.Posted, newDeal: DealId)
    requires WorldInv(w) && won in w.trading.outbox && won.event.AuctionWon? && FreshDeal(w, newDeal)
    ensures var a, ds := won.event.auction, w.deals;
            CreateDealSelection(ds, a, won.event.winners, won.event.finalPrice, won.at, newDeal).Ok?
            <==> && won.at != ZERO_TIME && a in ds.projections
                 && if a in ds.selections then ds.selections[a].status != SelectionDomain.Exhausted
                    else ds.projections[a].supplier != NO_ID && ds.projections[a].productNamed
  {
    hide DealsInv, Attempts, TradingInvariants.TradingInv, Candidates;
    WorldParts(w);
    WonIsAnnounced(w, won);
    TradingInvariants.WonFacts(w.trading, won);
    var a := won.event.auction;
    assert won.event.winners[0] in won.event.winners;
    if a in w.deals.selections {
      SettlementTheorems.SelectionShaped(w.deals, a);
    }
  }

  lemma ExhaustedStays(w: World, w': World, a: AuctionId)
    requires Advances(w, w') && a in w.deals.selections && w.deals.selections[a].status == SelectionDomain.Exhausted
    ensures a in w'.deals.selections && w'.deals.selections[a] == w.deals.selections[a]
  {
    assert SelectionAdvances(w.deals.selections[a], w'.deals.selections[a]);
  }

  // ---------- auctions that are over ----------

  // An auction that was cancelled, or whose candidates have run out.
  predicate Over(w: World, a: AuctionId) {
    || (a in w.trading.auctions && w.trading.auctions[a].state == AuctionDropped)
    || (a in w.deals.selections && w.deals.selections[a].status == SelectionDomain.Exhausted)
  }

  // A deposit that is still HELD on such an auction.
  predicate Forgotten(w: World, k: DepositKey) {
    k in w.billing.deposits && w.billing.deposits[k].status == HELD && Over(w, k.auction)
  }

  lemma DroppedStays(w: World, t: TradingStep, a: AuctionId)
    requires ApplyTrading(w, t).Ok? && a in w.trading.auctions && w.trading.auctions[a].state == AuctionDropped
    ensures var ts' := ApplyTrading(w, t).value.trading; a in ts'.auctions && ts'.auctions[a].state == AuctionDropped
  {
    hide Candidates, Winner, WinnerRecords, ReserveForBid;
  }

  lemma OverStays(w: World, s: Step, a: AuctionId)
    requires WorldInv(w) && Over(w, a)
    ensures Over(After(w, s), a)
  {
    hide WorldInv, Advances, ApplyCommand, ApplyDelivery, ApplyBilling, ApplyTrading;
    StepKeeps(w, s);
    if a in w.deals.selections && w.deals.selections[a].status == SelectionDomain.Exhausted {
      ExhaustedStays(w, After(w, s), a);
    } else if Enabled(w, s) && Apply(w, s).Ok? {
      match s
      case Trade(t) => DroppedStays(w, t, a);
      case Deliver(v) => DeliveryLeavesTrading(w, v);
      case _ =>
    }
  }

  lemma DeliveryLeavesTrading(w: World, v: Delivery)
    requires Emitted(w, v) && ApplyDelivery(w, v).Ok?
    ensures ApplyDelivery(w, v).value.trading == w.trading
  {
  }

  lemma NotBlank(ds: Deals, d: DealId)
    requires DealsInv(ds) && d in ds.deals
    ensures d != NO_ID
  {
    DealsParts(ds);
    assert DealOk(ds, d);
  }

  // Nobody can bid on it, and all its deals are cancelled for good.
  lemma OverMeans(w: World, a: AuctionId)
    requires WorldInv(w) && Over(w, a)
    ensures a in w.trading.auctions ==> w.trading.auctions[a].state in {Won, AuctionDropped}
    ensures forall d | d in w.deals.deals && w.deals.deals[d].auction == a :: !Live(w.deals, d)
  {
    hide DealsInv, TradingInvariants.TradingInv, BillingInv;
    WorldParts(w);
    if a in w.deals.selections {
      SettlementTheorems.SelectionShaped(w.deals, a);
      assert SelectionAnnounced(w.trading, w.deals.selections[a]);
    }
    forall d | d in w.deals.deals && w.deals.deals[d].auction == a
      ensures !Live(w.deals, d)
    {
      if Live(w.deals, d) {
        LiveIsSelected(w.deals, d);
        DealKeyed(w.deals, d);
        NotBlank(w.deals, d);
        SettlementTheorems.SelectionShaped(w.deals, a);
        assert false;
      }
    }
  }

  // ---------- what frees a forgotten deposit ----------

  // The release of its auction's losers, if its company is one; or the forfeiture of its company's deal.
  predicate Frees(s: Step, k: DepositKey) {
    && s.Deliver?
    && match s.delivery
       case ReleaseLosers(won) => won.event.AuctionWon? && won.event.auction == k.auction && k.company !in won.event.winners
       case RejectedWinner(e) => e.WinnerRejected? && e.auction == k.auction && e.company == k.company
       case _ => false
  }

  lemma TradeKeepsForgotten(w: World, t: TradingStep, k: DepositKey)
    requires WorldInv(w) && Forgotten(w, k) && Enabled(w, Trade(t)) && ApplyTrading(w, t).Ok?
    ensures var w' := ApplyTrading(w, t).value; k in w'.billing.deposits && w'.billing.deposits[k] == w.billing.deposits[k]
  {
    hide Candidates, WorldInv, Over;
    if t.BidStep? {
      OverMeans(w, k.auction);
      BidOutcome(w, t.a, t.bidder, t.amount, t.placedAt, t.at);
      hide ApplyBid, TradingInvariants.TradingInv, BillingInv, TradingInvariants.TradingAdvances, BillingAdvances;
    }
  }

  lemma RejectionKeepsForgotten(w: World, e: DealEvent, k: DepositKey)
    requires WorldInv(w) && k in w.billing.deposits && e in w.deals.outbox && e.WinnerRejected? && !Frees(Deliver(RejectedWinner(e)), k)
    requires CaptureAuctionDeposit(w.billing, e.company, e.auction).Ok?
    ensures var b' := CaptureAuctionDeposit(w.billing, e.company, e.auction).value;
            k in b'.deposits && b'.deposits[k] == w.billing.deposits[k]
  {
    hide WorldInv, BillingInv, BillingAdvances, DealsInv, CaptureAuctionDeposit, Settled, Forfeited;
    WorldParts(w);
    RejectedWinnerOutcome(w, e);
    CaptureOutcome(w.billing, e.company, e.auction);
  }

  lemma FinalizationKeepsForgotten(w: World, e: DealEvent, k: DepositKey)
    requires WorldInv(w) && Forgotten(w, k) && e in w.deals.outbox && e.WinnerSelectionFinalized?
    requires FinalizeAuction(w.billing, PayoutFor(e)).Ok?
    ensures var b' := FinalizeAuction(w.billing, PayoutFor(e)).value;
            k in b'.deposits && b'.deposits[k] == w.billing.deposits[k]
  {
    hide WorldInv, FinalizeAuction, InvoiceMatchesDeal, Over, Money.PlatformFee, Ledger.Sum;
    FinalizedFacts(w, e);
    OverMeans(w, k.auction);
    if e.deal in w.billing.payouts {
      FinalizeIsIdle(w, e);
    } else {
      FinalizeSettles(w, e);
      assert k in FinalizeAuction(w.billing, PayoutFor(e)).value.deposits.Keys;
    }
  }

  lemma ReleaseKeepsForgotten(w: World, won: TradingRules.Posted, k: DepositKey)
    requires WorldInv(w) && k in w.billing.deposits && won in w.trading.outbox && won.event.AuctionWon? && !Frees(Deliver(ReleaseLosers(won)), k)
    requires ReleaseAuctionDepositsExceptCandidates(w.billing, won.event.auction, won.event.winners).Ok?
    ensures var b' := ReleaseAuctionDepositsExceptCandidates(w.billing, won.event.auction, won.event.winners).value;
            k in b'.deposits && b'.deposits[k] == w.billing.deposits[k]
  {
    hide WorldInv, BillingInv, ReleaseAuctionDepositsExceptCandidates;
    WorldParts(w);
    WonIsAnnounced(w, won);
    ReleaseExceptOutcome(w.billing, won.event.auction, won.event.winners);
    assert k in ReleaseAuctionDepositsExceptCandidates(w.billing, won.event.auction, won.event.winners).value.deposits.Keys;
  }

  lemma DeliveryKeepsForgotten(w: World, v: Delivery, k: DepositKey)
    requires WorldInv(w) && Forgotten(w, k) && Enabled(w, Deliver(v)) && ApplyDelivery(w, v).Ok? && !Frees(Deliver(v), k)
    ensures var w' := ApplyDelivery(w, v).value; k in w'.billing.deposits && w'.billing.deposits[k] == w.billing.deposits[k]
  {
    hide WorldInv, BillingInv, DealsInv, CreateDealSelection, DealsProgress.OnDealCancelled, HandleDealInvoicePaid, HandleDealInvoiceExpired,
         ReleaseAuctionDepositsExceptCandidates, CaptureAuctionDeposit, CreateDealInvoice, FinalizeAuction, Over, Frees;
    WorldParts(w);
    match v
    case ReleaseLosers(won) => ReleaseKeepsForgotten(w, won, k);
    case RejectedWinner(e) => RejectionKeepsForgotten(w, e, k);
    case RequestedPayment(e, now, providerAnswers) =>
      BillingOutcomes.CreateDealInvoiceKeeps(w.billing, InvoiceCommand(e.deal, e.auction, e.buyer, e.seller, e.goods, e.dueAt), now, providerAnswers);
    case FinalizedSelection(e) => FinalizationKeepsForgotten(w, e, k);
    case _ =>
  }

  lemma StepKeepsForgotten(w: World, s: Step, k: DepositKey)
    requires WorldInv(w) && Forgotten(w, k) && !(Frees(s, k) && Enabled(w, s))
    ensures Forgotten(After(w, s), k)
  {
    hide WorldInv, ApplyCommand, ApplyDelivery, ApplyBilling, ApplyTrading, DealsInv, BillingInv, BillingAdvances, Advances, Over, Frees;
    WorldParts(w);
    OverStays(w, s, k.auction);
    if Enabled(w, s) && Apply(w, s).Ok? {
      match s
      case Trade(t) => TradeKeepsForgotten(w, t, k);
      case Deliver(v) => DeliveryKeepsForgotten(w, v, k);
      case Pay(p) => BillingStepIsPlain(w, p);
      case Command(c) =>
    }
  }

  lemma FreeingFrees(w: World, s: Step, k: DepositKey)
    requires WorldInv(w) && k in w.billing.deposits && w.billing.deposits[k].status == HELD && Frees(s, k) && Enabled(w, s)
    ensures k in After(w, s).billing.deposits && After(w, s).billing.deposits[k].status != HELD
  {
    hide WorldInv, ReleaseAuctionDepositsExceptCandidates, CaptureAuctionDeposit, Candidates, Advances, Settled, Forfeited;
    if s.delivery.ReleaseLosers? {
      ReleaseLosersKeeps(w, s.delivery.won);
      DepositsStay(w, After(w, s), k);
    } else {
      RejectedWinnerOutcome(w, s.delivery.event);
      if Settled(w.billing, k.auction) {
        SettledHoldsNothing(w, k.auction, k);
      }
    }
  }

  lemma DepositsStay(w: World, w': World, k: DepositKey)
    requires Advances(w, w') && k in w.billing.deposits
    ensures k in w'.billing.deposits && (w.billing.deposits[k].status != HELD ==> w'.billing.deposits[k] == w.billing.deposits[k])
  {
    hide Ledger.Sum;
    assert DepositAdvances(w.billing, w'.billing, k);
  }

  // Somewhere in the run a delivery frees the deposit.
  predicate FreedIn(w: World, steps: seq<Step>, k: DepositKey) {
    exists i | 0 <= i < |steps| :: Frees(steps[i], k) && Enabled(Run(w, steps[..i]), steps[i])
  }

  lemma FreedInLonger(w: World, steps: seq<Step>, k: DepositKey)
    requires steps != []
    ensures var n := |steps| - 1;
            FreedIn(w, steps, k) <==> FreedIn(w, steps[..n], k) || (Frees(steps[n], k) && Enabled(Run(w, steps[..n]), steps[n]))
  {
    hide Run, Frees, Enabled;
    var init := steps[..|steps| - 1];
    assert forall i | 0 <= i < |init| :: init[i] == steps[i] && init[..i] == steps[..i];
    if i :| 0 <= i < |steps| && Frees(steps[i], k) && Enabled(Run(w, steps[..i]), steps[i]) {
      if i < |init| {
        assert Frees(init[i], k) && Enabled(Run(w, init[..i]), init[i]);
      }
    }
    if i :| 0 <= i < |init| && Frees(init[i], k) && Enabled(Run(w, init[..i]), init[i]) {
      assert Frees(steps[i], k) && Enabled(Run(w, steps[..i]), steps[i]);
    }
  }

  // A forgotten deposit stays HELD over a run if and only if no such delivery is in it: neither commands, nor money, nor
  // any other event frees it.
  lemma {:induction false} ForgottenUnlessFreed(w: World, steps: seq<Step>, k: DepositKey)
    requires WorldInv(w) && Forgotten(w, k)
    ensures var w' := Run(w, steps);
            && k in w'.billing.deposits
            && (w'.billing.deposits[k].status == HELD <==> !FreedIn(w, steps, k))
            && (!FreedIn(w, steps, k) ==> Forgotten(w', k))
  {
    if steps != [] {
      hide After, FreedIn, Frees, Enabled, Advances, WorldInv, Over;
      var before, s := Run(w, steps[..|steps| - 1]), steps[|steps| - 1];
      FreedInLonger(w, steps, k);
      ForgottenUnlessFreed(w, steps[..|steps| - 1], k);
      RunKeeps(w, steps[..|steps| - 1]);
      StepKeeps(before, s);
      DepositsStay(before, After(before, s), k);
      if !FreedIn(w, steps[..|steps| - 1], k) {
        if Frees(s, k) && Enabled(before, s) {
          FreeingFrees(before, s, k);
        } else {
          StepKeepsForgotten(before, s, k);
        }
      }
    }
  }

  // ---------- no new forfeiture on an auction that is over ----------

  // Only a deal that is not cancelled yet is forfeited.
  predicate RejectsOpenOnes(ds: Deals, ds': Deals) {
    forall e | e in ds'.outbox && e.WinnerRejected? && e !in ds.outbox ::
      e.deal in ds.deals && ds.deals[e.deal].status != Cancelled && ds.deals[e.deal].auction == e.auction
  }

  lemma CancellationRejects(ds: Deals, ds': Deals, d: DealId, reason: CancelReason, actor: Actor, earlier: seq<DealEvent>)
    requires DealsInv(ds) && CancelledBy(ds, ds', d, reason, actor, earlier)
    ensures RejectsOpenOnes(ds, ds')
  {
    hide DealsInv, DealRow.Cancel;
    DealKeyed(ds, d);
    CancelIsAllowed(ds.deals[d], reason, actor);
    CancelEvents(ds.deals[d], reason, actor);
  }

  lemma DeclineRejects(ds: Deals, a: AuctionId, d: DealId, newDeal: DealId)
    requires DealsInv(ds) && newDeal != NO_ID && HandleDealDeclined(ds, a, d, newDeal).Ok?
    ensures RejectsOpenOnes(ds, HandleDealDeclined(ds, a, d, newDeal).value)
  {
    hide DealsInv, HandleDealDeclined, Fallback;
    var auction := if a == NO_ID && d in ds.deals then ds.deals[d].auction else a;
    HandleDealDeclinedFallsBack(ds, a, d, newDeal);
    SettlementTheorems.SelectionShaped(ds, auction);
    FallbackValue(ds, auction, newDeal);
  }

  lemma ExpiryRejects(ds: Deals, d: DealId, a: AuctionId, buyer: CompanyId, newDeal: DealId)
    requires DealsInv(ds) && newDeal != NO_ID && HandleDealInvoiceExpired(ds, d, a, buyer, newDeal).Ok?
    ensures RejectsOpenOnes(ds, HandleDealInvoiceExpired(ds, d, a, buyer, newDeal).value)
  {
    hide DealsInv, Fallback, CancelledBy;
    HandleDealInvoiceExpiredCases(ds, d, a, buyer, newDeal);
    DealKeyed(ds, d);
    hide HandleDealInvoiceExpired;
    if HandleDealInvoiceExpired(ds, d, a, buyer, newDeal) != Ok(ds) {
      SettlementTheorems.SelectionShaped(ds, a);
      FallbackValue(TimedOut(ds, d), a, newDeal);
    }
  }

  lemma ApprovalRejects(ds: Deals, q: DealId, c: ConfirmationId, company: CompanyId, user: UserId, now: Time)
    requires DealsInv(ds) && ApproveDealConfirmation(ds, q, c, company, user, now).Ok?
    ensures RejectsOpenOnes(ds, ApproveDealConfirmation(ds, q, c, company, user, now).value)
  {
    hide DealsInv, DealRow.Cancel, CancelledBy;
    ApproveCases(ds, q, c, company, user, now);
    hide ApproveDealConfirmation;
    var request := ds.confirmations[c];
    if request.stage == StageCancelled {
      CancellationRejects(ds, ApproveDealConfirmation(ds, q, c, company, user, now).value, q,
                          if request.comment == NoReason then DEFAULT_CANCEL_REASON else request.comment,
                          Party(request.requestedBy), [ConfirmationApproved(c, q)]);
    }
  }

  lemma CommandRejects(ds: Deals, s: DealsStep)
    requires DealsInv(ds) && ApplyCommand(ds, s).Ok? && (s.DeclineStep? ==> s.newDeal != NO_ID)
    ensures RejectsOpenOnes(ds, ApplyCommand(ds, s).value)
  {
    hide DealsInv, HandleDealDeclined, ApproveDealConfirmation, DealRow.Cancel;
    match s
    case DeclineStep(a, d, newDeal) => DeclineRejects(ds, a, d, newDeal);
    case ApproveStep(q, c, company, user, now) => ApprovalRejects(ds, q, c, company, user, now);
    case CancelStep(d, reason, actor) =>
      CancelForfeits(ds.deals[d], reason, actor.value);
      assert [] + ds.deals[d].Cancel(reason, actor.value).value.events == ds.deals[d].Cancel(reason, actor.value).value.events;
      CancellationRejects(ds, ApplyCommand(ds, s).value, d, reason, actor.value, []);
    case _ =>
  }

  lemma OpeningRejects(ds: Deals, a: AuctionId, winners: seq<CompanyId>, finalPrice: int, wonAt: Time, newDeal: DealId)
    requires CreateDealSelection(ds, a, winners, finalPrice, wonAt, newDeal).Ok?
    ensures RejectsOpenOnes(ds, CreateDealSelection(ds, a, winners, finalPrice, wonAt, newDeal).value)
  {
  }

  lemma PaymentRejects(w: World, e: BillingEvent)
    requires WorldInv(w) && e in w.billing.outbox && e.DealInvoicePaid?
    requires HandleDealInvoicePaid(w.deals, e.deal, e.auction, e.buyer, e.goods, e.feeDue, e.amount).Ok?
    ensures RejectsOpenOnes(w.deals, HandleDealInvoicePaid(w.deals, e.deal, e.auction, e.buyer, e.goods, e.feeDue, e.amount).value)
  {
    hide WorldInv, HandleDealInvoicePaid;
    PaidInvoiceOutcome(w, e);
  }

  lemma DeliveryRejects(w: World, v: Delivery)
    requires WorldInv(w) && Enabled(w, Deliver(v)) && ApplyDelivery(w, v).Ok?
    ensures RejectsOpenOnes(w.deals, ApplyDelivery(w, v).value.deals)
  {
    hide RejectsOpenOnes, DealsInv, WorldInv, CreateDealSelection, HandleDealDeclined, HandleDealInvoicePaid, HandleDealInvoiceExpired,
         ReleaseAuctionDepositsExceptCandidates, CaptureAuctionDeposit, CreateDealInvoice, FinalizeAuction;
    WorldParts(w);
    RejectsNothing(w.deals);
    match v
    case OpenSelection(won, newDeal) =>
      OpeningRejects(w.deals, won.event.auction, won.event.winners, won.event.finalPrice, won.at, newDeal);
    case CancelledDeal(e, newDeal) =>
      if e.reason != PaymentTimeout && HandleDealDeclined(w.deals, NO_ID, e.deal, newDeal).Ok? {
        DeclineRejects(w.deals, NO_ID, e.deal, newDeal);
      }
    case PaidInvoice(e) => PaymentRejects(w, e);
    case ExpiredInvoice(e, newDeal) => ExpiryRejects(w.deals, e.deal, e.auction, e.buyer, newDeal);
    case _ =>
  }

  lemma RejectsNothing(ds: Deals)
    ensures RejectsOpenOnes(ds, ds)
  {
  }

  lemma TradingLeavesDeals(w: World, t: TradingStep)
    requires ApplyTrading(w, t).Ok?
    ensures ApplyTrading(w, t).value.deals == w.deals
  {
  }

  lemma StepRejects(w: World, s: Step)
    requires WorldInv(w)
    ensures RejectsOpenOnes(w.deals, After(w, s).deals)
  {
    hide RejectsOpenOnes, DealsInv, WorldInv, ApplyCommand, ApplyDelivery, ApplyBilling, ApplyTrading;
    WorldParts(w);
    RejectsNothing(w.deals);
    if Enabled(w, s) && Apply(w, s).Ok? {
      match s
      case Command(c) => CommandRejects(w.deals, c);
      case Deliver(v) => DeliveryRejects(w, v);
      case Trade(t) => TradingLeavesDeals(w, t);
      case Pay(p) =>
    }
  }

  predicate ForfeitureEmitted(ds: Deals, k: DepositKey) {
    exists e | e in ds.outbox :: e.WinnerRejected? && e.auction == k.auction && e.company == k.company
  }

  lemma EmittedMeansForfeited(ds: Deals, k: DepositKey)
    requires DealsInv(ds) && ForfeitureEmitted(ds, k)
    ensures Forfeited(ds, k)
  {
    var e :| e in ds.outbox && e.WinnerRejected? && e.auction == k.auction && e.company == k.company;
    EventTrue(ds, e);
    hide DealsInv;
  }

  lemma NoNewForfeiture(w: World, s: Step, k: DepositKey)
    requires WorldInv(w) && Over(w, k.auction) && !ForfeitureEmitted(w.deals, k)
    ensures !ForfeitureEmitted(After(w, s).deals, k)
  {
    hide WorldInv, After, Over;
    OverMeans(w, k.auction);
    StepRejects(w, s);
  }

  // A deal that was cancelled without a forfeiture is never forfeited later.
  lemma StepForfeitsNoCancelled(w: World, s: Step, d: DealId)
    requires WorldInv(w) && d in w.deals.deals && w.deals.deals[d].status == Cancelled
    requires !ForfeitureEmitted(w.deals, DepositKey(w.deals.deals[d].auction, w.deals.deals[d].customer))
    ensures !ForfeitureEmitted(After(w, s).deals, DepositKey(w.deals.deals[d].auction, w.deals.deals[d].customer))
  {
    hide WorldInv, After, DealsInv, BillingInv, TradingInvariants.TradingInv, Advances, DealsAdvances;
    WorldParts(w);
    StepRejects(w, s);
    StepKeeps(w, s);
    WorldParts(After(w, s));
    var ds, ds', row := w.deals, After(w, s).deals, w.deals.deals[d];
    forall e | e in ds'.outbox && e.WinnerRejected? && e !in ds.outbox
      ensures e.auction != row.auction || e.company != row.customer
    {
      EventTrue(ds', e);
      CustomerStays(w, After(w, s), e.deal);
      if e.auction == row.auction && e.company == row.customer {
        OneDealPerCompany(ds, d, e.deal);
        assert false;
      }
    }
  }

  lemma CustomerStays(w: World, w': World, d: DealId)
    requires Advances(w, w') && d in w.deals.deals
    ensures d in w'.deals.deals && w'.deals.deals[d].customer == w.deals.deals[d].customer
    ensures w.deals.deals[d].status == Cancelled ==> w'.deals.deals[d] == w.deals.deals[d]
  {
    assert DealAdvances(w.deals.deals[d], w'.deals.deals[d]);
  }

  lemma {:induction false} NeverForfeited(w: World, steps: seq<Step>, d: DealId)
    requires WorldInv(w) && d in w.deals.deals && w.deals.deals[d].status == Cancelled
    requires !ForfeitureEmitted(w.deals, DepositKey(w.deals.deals[d].auction, w.deals.deals[d].customer))
    ensures d in Run(w, steps).deals.deals && Run(w, steps).deals.deals[d] == w.deals.deals[d]
    ensures !ForfeitureEmitted(Run(w, steps).deals, DepositKey(w.deals.deals[d].auction, w.deals.deals[d].customer))
  {
    if steps != [] {
      hide After, WorldInv, ForfeitureEmitted, Advances;
      var init := steps[..|steps| - 1];
      NeverForfeited(w, init, d);
      RunKeeps(w, init);
      StepKeeps(Run(w, init), steps[|steps| - 1]);
      StepForfeitsNoCancelled(Run(w, init), steps[|steps| - 1], d);
      CustomerStays(Run(w, init), After(Run(w, init), steps[|steps| - 1]), d);
    }
  }

  // Nobody but a candidate's deposit is ever forfeited.
  lemma LosersAreNotForfeited(w: World, k: DepositKey)
    requires WorldInv(w) && (k.auction in w.deals.selections ==> k.company !in w.deals.selections[k.auction].candidates)
    ensures !ForfeitureEmitted(w.deals, k)
  {
    hide DealsInv, BillingInv, TradingInvariants.TradingInv;
    WorldParts(w);
    forall e | e in w.deals.outbox && e.WinnerRejected?
      ensures e.auction != k.auction || e.company != k.company
    {
      EventTrue(w.deals, e);
      CustomerIsCandidate(w.deals, e.deal);
    }
  }

  // ---------- in the order of the subscriber ----------

  predicate Releases(s: Step, a: AuctionId) {
    s.Deliver? && s.delivery.ReleaseLosers? && s.delivery.won.event.AuctionWon? && s.delivery.won.event.auction == a
  }

  // The first transaction for auction a commits.
  predicate OpeningAccepted(w: World, s: Step, a: AuctionId) {
    s.Deliver? && s.delivery.OpenSelection? && Enabled(w, s) && s.delivery.won.event.auction == a && Apply(w, s).Ok?
  }

  // The second transaction for auction a comes only after the first has committed.
  predicate InOrder(w: World, steps: seq<Step>, a: AuctionId) {
    forall i | 0 <= i < |steps| && Releases(steps[i], a) :: exists j | 0 <= j < i :: OpeningAccepted(Run(w, steps[..j]), steps[j], a)
  }

  lemma OpeningRefused(w: World, s: Step, a: AuctionId)
    requires WorldInv(w) && Over(w, a)
    ensures !OpeningAccepted(w, s, a)
  {
    hide WorldInv, TradingInvariants.TradingInv, CreateDealSelection, Candidates;
    if OpeningAccepted(w, s, a) {
      WonIsAnnounced(w, s.delivery.won);
      OpeningSucceedsIff(w, s.delivery.won, s.delivery.newDeal);
    }
  }

  lemma {:induction false} StaysOver(w: World, steps: seq<Step>, k: DepositKey)
    requires WorldInv(w) && Over(w, k.auction)
    ensures WorldInv(Run(w, steps)) && Over(Run(w, steps), k.auction)
    ensures !ForfeitureEmitted(w.deals, k) ==> !ForfeitureEmitted(Run(w, steps).deals, k)
  {
    if steps != [] {
      hide After, WorldInv, Over, ForfeitureEmitted, Advances;
      var before, s := Run(w, steps[..|steps| - 1]), steps[|steps| - 1];
      StaysOver(w, steps[..|steps| - 1], k);
      StepKeeps(before, s);
      OverStays(before, s, k.auction);
      if !ForfeitureEmitted(w.deals, k) {
        NoNewForfeiture(before, s, k);
      }
    }
  }

  // Every attempt to open the selection of an auction that is over fails, so in the subscriber's order its losers'
  // release is never reached.
  lemma RetriesFail(w: World, steps: seq<Step>, k: DepositKey)
    requires WorldInv(w) && Over(w, k.auction) && InOrder(w, steps, k.auction)
    ensures forall j | 0 <= j < |steps| :: !Releases(steps[j], k.auction)
  {
    hide Run, WorldInv, OpeningAccepted, Releases, Over;
    forall j | 0 <= j < |steps|
      ensures !OpeningAccepted(Run(w, steps[..j]), steps[j], k.auction)
    {
      StaysOver(w, steps[..j], k);
      OpeningRefused(Run(w, steps[..j]), steps[j], k.auction);
    }
  }

  // Main theorem: a deposit that is HELD on an auction that is over, with no subscriber between its two transactions, can
  // still be freed if and only if the forfeiture of its company's deal was emitted. All others stay HELD for ever.
  lemma CanBeFreedIff(w: World, k: DepositKey)
    requires WorldInv(w) && Forgotten(w, k)
    ensures (exists steps: seq<Step> | InOrder(w, steps, k.auction) ::
               k in Run(w, steps).billing.deposits && Run(w, steps).billing.deposits[k].status != HELD)
            <==> ForfeitureEmitted(w.deals, k)
  {
    hide WorldInv, Run, Over, Enabled;
    if ForfeitureEmitted(w.deals, k) {
      var e :| e in w.deals.outbox && e.WinnerRejected? && e.auction == k.auction && e.company == k.company;
      ForfeitureFrees(w, e, k);
    } else {
      forall steps: seq<Step> | InOrder(w, steps, k.auction)
        ensures k in Run(w, steps).billing.deposits && Run(w, steps).billing.deposits[k].status == HELD
      {
        hide ForfeitureEmitted, Releases;
        RetriesFail(w, steps, k);
        NothingFrees(w, steps, k);
        ForgottenUnlessFreed(w, steps, k);
      }
    }
  }

  lemma NothingFrees(w: World, steps: seq<Step>, k: DepositKey)
    requires WorldInv(w) && Over(w, k.auction) && !ForfeitureEmitted(w.deals, k)
    requires forall j | 0 <= j < |steps| :: !Releases(steps[j], k.auction)
    ensures !FreedIn(w, steps, k)
  {
    hide WorldInv, Run, Over;
    forall j | 0 <= j < |steps|
      ensures !(Frees(steps[j], k) && Enabled(Run(w, steps[..j]), steps[j]))
    {
      StaysOver(w, steps[..j], k);
      assert !Releases(steps[j], k.auction);
    }
  }

  lemma ForfeitureFrees(w: World, e: DealEvent, k: DepositKey)
    requires WorldInv(w) && Forgotten(w, k) && e in w.deals.outbox && e.WinnerRejected? && e.auction == k.auction && e.company == k.company
    ensures exists steps: seq<Step> | InOrder(w, steps, k.auction) ::
              k in Run(w, steps).billing.deposits && Run(w, steps).billing.deposits[k].status != HELD
  {
    hide WorldInv, After, Over;
    var s := Deliver(RejectedWinner(e));
    FreeingFrees(w, s, k);
    OneStep(w, s);
    hide Run;
    assert InOrder(w, [s], k.auction);
    assert k in Run(w, [s]).billing.deposits && Run(w, [s]).billing.deposits[k].status != HELD;
  }
}
