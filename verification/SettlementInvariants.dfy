/** The invariant that ties trading, deals and billing together, and what it says about one reachable state. */
module SettlementInvariants {
  import opened Common
  import opened Wallet
  import opened TradingInvariants
  import opened BillingInvariants
  import opened DealsRules
  import opened DealsInvariants
  import opened Settlement
  import Money
  import Ledger
  import AuctionDomain
  import AuctionRuns
  import TradingRules
  import BillingRules
  import DealDomain
  import DealsOutcomes

  // An invoice repeats its deal, whose payment was requested; while the deal is live it charges exactly the part of
  // the fee that the buyer's deposit does not cover.
  predicate InvoiceMatchesDeal(b: BillingRules.Billing, ds: Deals, d: DealId)
    requires d in b.invoices
  {
    && d in ds.deals
    && var i, row := b.invoices[d], ds.deals[d];
       && i.auction == row.auction && i.buyer == row.customer && i.seller == row.supplier && i.goods == row.unitPrice
       && (row.status == DealDomain.PaymentRequested || !DealDomain.PrePaid(row.status))
       && DepositKey(row.auction, row.customer) in b.deposits
       && (Live(ds, d) ==> i.feeDue == Money.FeeDue(i.goods, b.deposits[DepositKey(row.auction, row.customer)].amount))
  }

  ghost predicate InvoicesMatchDeals(b: BillingRules.Billing, ds: Deals) {
    forall d | d in b.invoices :: InvoiceMatchesDeal(b, ds, d)
  }

  // A finalized selection was paid for: its event repeats the paid invoice.
  predicate FinalizedIsPaid(b: BillingRules.Billing, e: DealDomain.DealEvent) {
    e.WinnerSelectionFinalized? ==>
      && e.deal in b.invoices
      && var i := b.invoices[e.deal];
         i.status == InvoicePaid && i.auction == e.auction && i.buyer == e.company && i.goods == e.goods && i.feeDue == e.feeDue
  }

  ghost predicate FinalizedArePaid(b: BillingRules.Billing, ds: Deals) {
    forall e | e in ds.outbox :: FinalizedIsPaid(b, e)
  }

  // A payout is owed for the deal its auction was finalized on; by then no deposit of the auction is HELD any more,
  // and the winner's was split between the platform and the winner.
  predicate PayoutSettled(b: BillingRules.Billing, ds: Deals, d: DealId)
    requires d in b.payouts
  {
    var p := b.payouts[d];
    && FinalizedOn(ds, d) && ds.deals[d].auction == p.auction && ds.deals[d].unitPrice == p.amount
    && (forall k | k in b.deposits && k.auction == p.auction :: b.deposits[k].status != HELD)
    && var k := DepositKey(p.auction, ds.deals[d].customer);
       && k in b.deposits
       && Ledger.Sum(Ledger.CapturedFor(k.auction, k.company), b.ledger) == Money.Min(Money.PlatformFee(p.amount), b.deposits[k].amount)
       && Ledger.Sum(Ledger.ReleasedFor(k.auction, k.company), b.ledger) == b.deposits[k].amount - Money.Min(Money.PlatformFee(p.amount), b.deposits[k].amount)
  }

  ghost predicate PayoutsSettled(b: BillingRules.Billing, ds: Deals) {
    forall d | d in b.payouts :: PayoutSettled(b, ds, d)
  }

  // The three ways a deposit stops being HELD: its company is not among the candidates, its company's deal was
  // forfeited, or its auction was settled.
  predicate Lost(ts: TradingRules.Trading, k: DepositKey) {
    && k.auction in ts.auctions && ts.auctions[k.auction].state == AuctionDomain.Won
    && k.company !in AuctionDomain.Candidates(AuctionRuns.Reverse(TradingRules.BidsOf(ts, k.auction)))
  }

  predicate Forfeited(ds: Deals, k: DepositKey) {
    exists d | d in ds.deals :: ds.deals[d].auction == k.auction && ds.deals[d].customer == k.company && !Live(ds, d)
  }

  predicate Settled(b: BillingRules.Billing, a: AuctionId) {
    exists d | d in b.payouts :: b.payouts[d].auction == a
  }

  predicate EndExplained(ts: TradingRules.Trading, b: BillingRules.Billing, ds: Deals, k: DepositKey)
    requires k in b.deposits
  {
    b.deposits[k].status != HELD ==>
      || (b.deposits[k].status == RELEASED && Lost(ts, k))
      || (b.deposits[k].status == CAPTURED && Forfeited(ds, k))
      || Settled(b, k.auction)
  }

  ghost predicate EndsExplained(w: World) {
    forall k | k in w.billing.deposits :: EndExplained(w.trading, w.billing, w.deals, k)
  }

  // What the invariant is made of.
  datatype WorldPart =
    | TradingPart | BillingPart | DealsPart
    | DepositsPart | SelectionsPart | InvoicesPart | FinalizedPart | PayoutsPart | EndsPart

  ghost predicate WorldHolds(p: WorldPart, w: World) {
    match p
    case TradingPart => TradingInv(w.trading)
    case BillingPart => BillingInv(w.billing)
    case DealsPart => DealsInv(w.deals)
    case DepositsPart => DepositsMatchBids(w.trading, w.billing)
    case SelectionsPart => SelectionsAnnounced(w.trading, w.deals)
    case InvoicesPart => InvoicesMatchDeals(w.billing, w.deals)
    case FinalizedPart => FinalizedArePaid(w.billing, w.deals)
    case PayoutsPart => PayoutsSettled(w.billing, w.deals)
    case EndsPart => EndsExplained(w)
  }

  ghost predicate WorldInv(w: World) {
    forall p: WorldPart :: WorldHolds(p, w)
  }

  lemma WorldParts(w: World)
    requires WorldInv(w)
    ensures TradingInv(w.trading) && BillingInv(w.billing) && DealsInv(w.deals)
    ensures DepositsMatchBids(w.trading, w.billing) && SelectionsAnnounced(w.trading, w.deals)
    ensures InvoicesMatchDeals(w.billing, w.deals) && FinalizedArePaid(w.billing, w.deals) && PayoutsSettled(w.billing, w.deals)
    ensures EndsExplained(w)
  {
    hide TradingInv, BillingInv, DealsInv, DepositsMatchBids, SelectionsAnnounced, InvoicesMatchDeals, FinalizedArePaid,
         PayoutsSettled, EndsExplained;
    assert WorldHolds(TradingPart, w) && WorldHolds(BillingPart, w) && WorldHolds(DealsPart, w);
    assert WorldHolds(DepositsPart, w) && WorldHolds(SelectionsPart, w) && WorldHolds(InvoicesPart, w);
    assert WorldHolds(FinalizedPart, w) && WorldHolds(PayoutsPart, w) && WorldHolds(EndsPart, w);
  }

  lemma Whole(w: World)
    requires TradingInv(w.trading) && BillingInv(w.billing) && DealsInv(w.deals)
    requires DepositsMatchBids(w.trading, w.billing) && SelectionsAnnounced(w.trading, w.deals)
    requires InvoicesMatchDeals(w.billing, w.deals) && FinalizedArePaid(w.billing, w.deals) && PayoutsSettled(w.billing, w.deals)
    requires EndsExplained(w)
    ensures WorldInv(w)
  {
    hide TradingInv, BillingInv, DealsInv, DepositsMatchBids, SelectionsAnnounced, InvoicesMatchDeals, FinalizedArePaid,
         PayoutsSettled, EndsExplained;
  }

  lemma StartInv()
    ensures WorldInv(START)
  {
    EmptyTradingInv();
    EmptyBillingInv();
    EmptyDealsInv();
    assert forall k: DepositKey :: !HasBid(TradingRules.NO_TRADING, k.auction, k.company);
    hide TradingInv, BillingInv, DealsInv;
    Whole(START);
  }

  // ---------- live deals ----------

  // A live deal is its selection's current one, for one of its candidates.
  lemma LiveIsSelected(ds: Deals, d: DealId)
    requires DealsInv(ds) && Live(ds, d)
    ensures var a := ds.deals[d].auction;
            && a in ds.selections && ds.selections[a].deal == d && ds.selections[a].auction == a
            && ds.deals[d].customer in ds.selections[a].candidates && a != NO_ID && ds.deals[d].customer != NO_ID
  {
    DealsParts(ds);
    var a := ds.deals[d].auction;
    assert DealOk(ds, d);
    assert SelectionOk(ds, a);
    DealsOutcomes.BuyerNamed(ds, d);
    FallbackFollowsRanking(ds, a);
    if ds.deals[d].status != DealDomain.Cancelled {
      CurrentDeal(ds, d);
    }
    hide Attempts, DealsInv, Coupled;
  }

  // The customer of any deal of an auction is one of its candidates.
  lemma CustomerIsCandidate(ds: Deals, d: DealId)
    requires DealsInv(ds) && d in ds.deals
    ensures ds.deals[d].auction in ds.selections
    ensures ds.deals[d].customer in ds.selections[ds.deals[d].auction].candidates
    ensures ds.selections[ds.deals[d].auction].auction == ds.deals[d].auction
  {
    DealsParts(ds);
    var a := ds.deals[d].auction;
    assert DealOk(ds, d);
    assert SelectionOk(ds, a);
    FallbackFollowsRanking(ds, a);
    hide DealsInv, Coupled;
  }

  // One company never has two deals on one auction.
  lemma OneDealPerCompany(ds: Deals, d1: DealId, d2: DealId)
    requires DealsInv(ds) && d1 in ds.deals && d2 in ds.deals
    requires ds.deals[d1].auction == ds.deals[d2].auction && ds.deals[d1].customer == ds.deals[d2].customer
    ensures d1 == d2
  {
    hide DealsInv, Attempts;
    CustomerIsCandidate(ds, d1);
    FallbackFollowsRanking(ds, ds.deals[d1].auction);
    var attempts := Attempts(ds.outbox, ds.deals[d1].auction);
    var i :| 0 <= i < |attempts| && attempts[i] == d1;
    var j :| 0 <= j < |attempts| && attempts[j] == d2;
  }

  // ---------- the buyer's deposit ----------

  lemma CustomerHasDeposit(w: World, d: DealId)
    requires WorldInv(w) && d in w.deals.deals
    ensures DepositKey(w.deals.deals[d].auction, w.deals.deals[d].customer) in w.billing.deposits
    ensures !Lost(w.trading, DepositKey(w.deals.deals[d].auction, w.deals.deals[d].customer))
  {
    WorldParts(w);
    var row := w.deals.deals[d];
    CustomerIsCandidate(w.deals, d);
    var sel := w.deals.selections[row.auction];
    assert SelectionAnnounced(w.trading, sel);
    var bids := TradingRules.BidsOf(w.trading, row.auction);
    CandidateBids(bids, row.customer);
    hide TradingInv, BillingInv, DealsInv, InvoicesMatchDeals, FinalizedArePaid, PayoutsSettled, EndsExplained, AuctionDomain.Candidates, TradingRules.BidsOf, AuctionRuns.Reverse;
    assert HasBid(w.trading, row.auction, row.customer);
  }

  lemma CandidateBids(bids: seq<AuctionDomain.Bid>, c: CompanyId)
    requires c in AuctionDomain.Candidates(AuctionRuns.Reverse(bids))
    ensures exists b | b in bids :: b.bidder == c
  {
    var ranking := AuctionRuns.Reverse(bids);
    var top := AuctionDomain.Top(ranking, AuctionDomain.MAX_CANDIDATES);
    AuctionDomain.FirstAppearancesLaws(top);
    var i :| 0 <= i < |top| && top[i].bidder == c;
    assert top[i] == ranking[i] == bids[|bids| - 1 - i];
  }

  // Until its auction is settled, the deposit behind a live deal stays HELD with its original amount.
  lemma LiveDealKeepsDeposit(w: World, d: DealId)
    requires WorldInv(w) && Live(w.deals, d) && d !in w.billing.payouts
    ensures var k := DepositKey(w.deals.deals[d].auction, w.deals.deals[d].customer);
            && k in w.billing.deposits && w.billing.deposits[k].status == HELD
            && k.auction in w.trading.auctions
            && w.billing.deposits[k].amount == Money.DepositFromStartPrice(w.trading.auctions[k.auction].startPrice)
  {
    WorldParts(w);
    var k := DepositKey(w.deals.deals[d].auction, w.deals.deals[d].customer);
    CustomerHasDeposit(w, d);
    assert EndExplained(w.trading, w.billing, w.deals, k);
    LiveNotForfeited(w.deals, d);
    NotSettledWithout(w, d);
    hide TradingInv, BillingInv, DealsInv, InvoicesMatchDeals, FinalizedArePaid, PayoutsSettled, EndsExplained, Lost,
         Forfeited, Settled, Live;
  }

  lemma LiveNotForfeited(ds: Deals, d: DealId)
    requires DealsInv(ds) && Live(ds, d)
    ensures !Forfeited(ds, DepositKey(ds.deals[d].auction, ds.deals[d].customer))
  {
    var k := DepositKey(ds.deals[d].auction, ds.deals[d].customer);
    forall q | q in ds.deals && ds.deals[q].auction == k.auction && ds.deals[q].customer == k.company
      ensures Live(ds, q)
    {
      OneDealPerCompany(ds, d, q);
    }
  }

  // The auction of a live deal is settled only by that deal's own payout.
  lemma NotSettledWithout(w: World, d: DealId)
    requires WorldInv(w) && Live(w.deals, d) && d !in w.billing.payouts
    ensures !Settled(w.billing, w.deals.deals[d].auction)
  {
    WorldParts(w);
    var a := w.deals.deals[d].auction;
    LiveIsSelected(w.deals, d);
    forall q | q in w.billing.payouts
      ensures w.billing.payouts[q].auction != a
    {
      assert PayoutSettled(w.billing, w.deals, q);
      assert FinalizedOn(w.deals, q);
    }
  }
}
