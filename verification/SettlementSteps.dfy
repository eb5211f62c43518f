/** Every step of the system keeps the invariant, and keeps what was true. */
module SettlementSteps {
  import opened Common
  import opened Wallet
  import opened AuctionDomain
  import opened TradingRules
  import opened TradingInvariants
  import opened BillingRules
  import opened BillingInvariants
  import opened DealsRules
  import opened DealsInvariants
  import opened Settlement
  import opened SettlementInvariants
  import Money
  import Ledger
  import DealsOutcomes

  ghost predicate Advances(w: World, w': World) {
    TradingAdvances(w.trading, w'.trading) && BillingAdvances(w.billing, w'.billing) && DealsAdvances(w.deals, w'.deals)
  }

  lemma AdvancesReflexive(w: World)
    ensures Advances(w, w)
  {
    TradingAdvancesReflexive(w.trading);
    BillingAdvancesReflexive(w.billing);
    DealsAdvancesReflexive(w.deals);
  }

  lemma AdvancesTransitive(w0: World, w1: World, w2: World)
    requires Advances(w0, w1) && Advances(w1, w2)
    ensures Advances(w0, w2)
  {
    TradingAdvancesTransitive(w0.trading, w1.trading, w2.trading);
    BillingAdvancesTransitive(w0.billing, w1.billing, w2.billing);
    DealsAdvancesTransitive(w0.deals, w1.deals, w2.deals);
  }

  // ---------- a step inside trading ----------

  // Lost deposits stay lost, and announced selections stay announced: a won auction does not change.
  lemma TradingKeepsLinks(w: World, ts': Trading)
    requires WorldInv(w) && TradingAdvances(w.trading, ts')
    ensures SelectionsAnnounced(ts', w.deals) && EndsExplained(w.(trading := ts'))
  {
    WorldParts(w);
    hide TradingInv, BillingInv, DealsInv, DepositsMatchBids, InvoicesMatchDeals, FinalizedArePaid, PayoutsSettled, Candidates;
    forall a | a in w.deals.selections
      ensures SelectionAnnounced(ts', w.deals.selections[a])
    {
      assert SelectionAnnounced(w.trading, w.deals.selections[a]);
      assert AuctionAdvances(w.trading, ts', w.deals.selections[a].auction);
    }
    forall k | k in w.billing.deposits
      ensures EndExplained(ts', w.billing, w.deals, k)
    {
      assert EndExplained(w.trading, w.billing, w.deals, k);
      if Lost(w.trading, k) {
        assert AuctionAdvances(w.trading, ts', k.auction);
      }
    }
  }

  lemma SameBidsMatchDeposits(ts: Trading, ts': Trading, b: Billing)
    requires DepositsMatchBids(ts, b) && TradingAdvances(ts, ts') && ts'.bids == ts.bids
    ensures DepositsMatchBids(ts', b)
  {
    assert forall a, c :: HasBid(ts', a, c) <==> HasBid(ts, a, c);
    hide HasBid;
    assert forall a | a in ts.auctions :: AuctionAdvances(ts, ts', a);
  }

  lemma TradingStepKeeps(w: World, ts': Trading)
    requires WorldInv(w) && TradingInv(ts') && TradingAdvances(w.trading, ts') && ts'.bids == w.trading.bids
    ensures WorldInv(w.(trading := ts')) && Advances(w, w.(trading := ts'))
  {
    hide WorldInv, TradingInv, BillingInv, DealsInv, SelectionsAnnounced, InvoicesMatchDeals, FinalizedArePaid, PayoutsSettled,
         EndsExplained, DepositsMatchBids, TradingAdvances, BillingAdvances, DealsAdvances;
    WorldParts(w);
    TradingKeepsLinks(w, ts');
    BillingAdvancesReflexive(w.billing);
    DealsAdvancesReflexive(w.deals);
    SameBidsMatchDeposits(w.trading, ts', w.billing);
    Whole(w.(trading := ts'));
  }

  // ---------- a step inside deals ----------

  lemma ForfeitedStays(ds: Deals, ds': Deals, k: DepositKey)
    requires DealsAdvances(ds, ds') && Forfeited(ds, k)
    ensures Forfeited(ds', k)
  {
    var d :| d in ds.deals && ds.deals[d].auction == k.auction && ds.deals[d].customer == k.company && !Live(ds, d);
    assert DealAdvances(ds.deals[d], ds'.deals[d]);
    assert !Live(ds', d);
  }

  lemma FinalizedStays(ds: Deals, ds': Deals, d: DealId)
    requires DealsAdvances(ds, ds') && FinalizedOn(ds, d)
    ensures FinalizedOn(ds', d) && ds'.deals[d].auction == ds.deals[d].auction && ds'.deals[d].customer == ds.deals[d].customer
            && ds'.deals[d].unitPrice == ds.deals[d].unitPrice
  {
    assert DealAdvances(ds.deals[d], ds'.deals[d]);
    assert SelectionAdvances(ds.selections[ds.deals[d].auction], ds'.selections[ds.deals[d].auction]);
  }

  lemma DealsKeepPayouts(b: Billing, ds: Deals, ds': Deals)
    requires PayoutsSettled(b, ds) && DealsAdvances(ds, ds')
    ensures PayoutsSettled(b, ds')
  {
    forall d | d in b.payouts
      ensures PayoutSettled(b, ds', d)
    {
      assert PayoutSettled(b, ds, d);
      FinalizedStays(ds, ds', d);
      hide Ledger.Sum, FinalizedOn, DealsAdvances;
    }
  }

  lemma DealsKeepInvoice(b: Billing, ds: Deals, ds': Deals, d: DealId)
    requires d in b.invoices && InvoiceMatchesDeal(b, ds, d) && DealsAdvances(ds, ds')
    ensures InvoiceMatchesDeal(b, ds', d)
  {
    assert DealAdvances(ds.deals[d], ds'.deals[d]);
    if Live(ds', d) {
      assert Live(ds, d);
    }
    hide Live;
  }

  lemma DealsKeepEnds(w: World, ds': Deals)
    requires EndsExplained(w) && DealsAdvances(w.deals, ds')
    ensures EndsExplained(w.(deals := ds'))
  {
    forall k | k in w.billing.deposits
      ensures EndExplained(w.trading, w.billing, ds', k)
    {
      assert EndExplained(w.trading, w.billing, w.deals, k);
      if Forfeited(w.deals, k) {
        ForfeitedStays(w.deals, ds', k);
      }
      hide Forfeited, Lost, Settled;
    }
  }

  // Links that hold after any step inside deals; the others depend on what the step starts or finishes.
  lemma DealsKeepLinks(w: World, ds': Deals)
    requires WorldInv(w) && DealsInv(ds') && DealsAdvances(w.deals, ds')
    requires SelectionsAnnounced(w.trading, ds') && FinalizedArePaid(w.billing, ds')
    ensures WorldInv(w.(deals := ds')) && Advances(w, w.(deals := ds'))
  {
    WorldParts(w);
    DealsKeepPayouts(w.billing, w.deals, ds');
    DealsKeepEnds(w, ds');
    TradingAdvancesReflexive(w.trading);
    BillingAdvancesReflexive(w.billing);
    hide TradingInv, BillingInv, DealsInv, SelectionsAnnounced, FinalizedArePaid, PayoutsSettled, EndsExplained,
         BillingAdvances, DealsAdvances, TradingAdvances, DepositsMatchBids;
    forall d | d in w.billing.invoices
      ensures InvoiceMatchesDeal(w.billing, ds', d)
    {
      DealsKeepInvoice(w.billing, w.deals, ds', d);
    }
    Whole(w.(deals := ds'));
  }

  lemma SelectionsStayAnnounced(ts: Trading, ds: Deals, ds': Deals, a: AuctionId)
    requires SelectionsAnnounced(ts, ds) && DealsAdvances(ds, ds') && a in ds.selections
    ensures a in ds'.selections && SelectionAnnounced(ts, ds'.selections[a])
  {
    assert SelectionAnnounced(ts, ds.selections[a]);
    assert SelectionAdvances(ds.selections[a], ds'.selections[a]);
  }

  lemma FinalizedStayPaid(b: Billing, ds: Deals, ds': Deals)
    requires FinalizedArePaid(b, ds) && DealsOutcomes.FinalizesNothing(ds, ds')
    ensures FinalizedArePaid(b, ds')
  {
    forall e | e in ds'.outbox
      ensures FinalizedIsPaid(b, e)
    {
      if e.WinnerSelectionFinalized? {
        assert FinalizedIsPaid(b, e);
      }
    }
  }

  lemma DealsStepKeeps(w: World, ds': Deals)
    requires WorldInv(w) && DealsOutcomes.Continues(w.deals, ds')
    ensures WorldInv(w.(deals := ds')) && Advances(w, w.(deals := ds'))
  {
    WorldParts(w);
    FinalizedStayPaid(w.billing, w.deals, ds');
    hide TradingInv, BillingInv, DealsInv, FinalizedArePaid, PayoutsSettled, EndsExplained, DealsAdvances, DepositsMatchBids,
         InvoicesMatchDeals, DealsOutcomes.FinalizesNothing, SelectionAnnounced;
    forall a | a in ds'.selections
      ensures SelectionAnnounced(w.trading, ds'.selections[a])
    {
      assert a in w.deals.selections.Keys;
      SelectionsStayAnnounced(w.trading, w.deals, ds', a);
    }
    DealsKeepLinks(w, ds');
  }

  // ---------- a step inside billing ----------

  lemma BillingKeepsFinalized(b: Billing, b': Billing, ds: Deals)
    requires FinalizedArePaid(b, ds) && BillingAdvances(b, b')
    ensures FinalizedArePaid(b', ds)
  {
    forall e | e in ds.outbox
      ensures FinalizedIsPaid(b', e)
    {
      assert FinalizedIsPaid(b, e);
      if e.WinnerSelectionFinalized? {
        assert InvoiceAdvances(b.invoices[e.deal], b'.invoices[e.deal]);
      }
    }
  }

  lemma BillingKeepsPayout(b: Billing, b': Billing, ds: Deals, d: DealId)
    requires d in b.payouts && PayoutSettled(b, ds, d) && BillingAdvances(b, b') && b'.deposits.Keys == b.deposits.Keys
    ensures d in b'.payouts && PayoutSettled(b', ds, d)
  {
    hide Ledger.Sum, FinalizedOn, Money.PlatformFee;
    assert PayoutAdvances(b.payouts[d], b'.payouts[d]);
    assert forall k | k in b.deposits :: DepositAdvances(b, b', k);
  }

  lemma BillingKeepsInvoice(b: Billing, b': Billing, ds: Deals, d: DealId)
    requires d in b.invoices && InvoiceMatchesDeal(b, ds, d) && BillingAdvances(b, b')
    ensures d in b'.invoices && InvoiceMatchesDeal(b', ds, d)
  {
    hide Ledger.Sum, Live, Money.PlatformFee;
    assert InvoiceAdvances(b.invoices[d], b'.invoices[d]);
    var k := DepositKey(ds.deals[d].auction, ds.deals[d].customer);
    assert DepositAdvances(b, b', k);
  }

  // A step inside billing keeps the invariant if every new invoice and payout is linked and every deposit that it ends
  // is accounted for.
  lemma BillingKeepsLinks(w: World, b': Billing)
    requires WorldInv(w) && BillingInv(b') && BillingAdvances(w.billing, b') && b'.deposits.Keys == w.billing.deposits.Keys
    requires forall d | d in b'.invoices && d !in w.billing.invoices :: InvoiceMatchesDeal(b', w.deals, d)
    requires forall d | d in b'.payouts && d !in w.billing.payouts :: PayoutSettled(b', w.deals, d)
    requires forall k | k in b'.deposits && b'.deposits[k] != w.billing.deposits[k] :: EndExplained(w.trading, b', w.deals, k)
    ensures WorldInv(w.(billing := b')) && Advances(w, w.(billing := b'))
  {
    WorldParts(w);
    BillingKeepsFinalized(w.billing, b', w.deals);
    TradingAdvancesReflexive(w.trading);
    DealsAdvancesReflexive(w.deals);
    BillingKeepsInvoices(w, b');
    BillingKeepsPayouts(w, b');
    BillingKeepsEnds(w, b');
    BillingKeepsDeposits(w, b');
    hide TradingInv, BillingInv, DealsInv, SelectionsAnnounced, FinalizedArePaid, EndsExplained, DepositsMatchBids,
         BillingAdvances, DealsAdvances, TradingAdvances, InvoicesMatchDeals, PayoutsSettled, InvoiceMatchesDeal, PayoutSettled,
         EndExplained;
    Whole(w.(billing := b'));
  }

  lemma BillingKeepsInvoices(w: World, b': Billing)
    requires InvoicesMatchDeals(w.billing, w.deals) && BillingAdvances(w.billing, b')
    requires forall d | d in b'.invoices && d !in w.billing.invoices :: InvoiceMatchesDeal(b', w.deals, d)
    ensures InvoicesMatchDeals(b', w.deals)
  {
    hide InvoiceMatchesDeal, BillingAdvances;
    forall d | d in b'.invoices
      ensures InvoiceMatchesDeal(b', w.deals, d)
    {
      if d in w.billing.invoices {
        BillingKeepsInvoice(w.billing, b', w.deals, d);
      }
    }
  }

  lemma BillingKeepsPayouts(w: World, b': Billing)
    requires PayoutsSettled(w.billing, w.deals) && BillingAdvances(w.billing, b') && b'.deposits.Keys == w.billing.deposits.Keys
    requires forall d | d in b'.payouts && d !in w.billing.payouts :: PayoutSettled(b', w.deals, d)
    ensures PayoutsSettled(b', w.deals)
  {
    hide PayoutSettled, BillingAdvances;
    forall d | d in b'.payouts
      ensures PayoutSettled(b', w.deals, d)
    {
      if d in w.billing.payouts {
        BillingKeepsPayout(w.billing, b', w.deals, d);
      }
    }
  }

  lemma BillingKeepsEnds(w: World, b': Billing)
    requires EndsExplained(w) && BillingAdvances(w.billing, b') && b'.deposits.Keys == w.billing.deposits.Keys
    requires forall k | k in b'.deposits && b'.deposits[k] != w.billing.deposits[k] :: EndExplained(w.trading, b', w.deals, k)
    ensures EndsExplained(w.(billing := b'))
  {
    hide Lost, Forfeited, Ledger.Sum;
    forall k | k in b'.deposits
      ensures EndExplained(w.trading, b', w.deals, k)
    {
      assert EndExplained(w.trading, w.billing, w.deals, k);
      if Settled(w.billing, k.auction) {
        var d :| d in w.billing.payouts && w.billing.payouts[d].auction == k.auction;
        assert PayoutAdvances(w.billing.payouts[d], b'.payouts[d]);
        assert Settled(b', k.auction);
      }
    }
  }

  lemma BillingKeepsDeposits(w: World, b': Billing)
    requires DepositsMatchBids(w.trading, w.billing) && BillingAdvances(w.billing, b') && b'.deposits.Keys == w.billing.deposits.Keys
    ensures DepositsMatchBids(w.trading, b')
  {
    hide HasBid, Ledger.Sum;
    forall k | k in b'.deposits
      ensures k.auction in w.trading.auctions && b'.deposits[k].amount == Money.DepositFromStartPrice(w.trading.auctions[k.auction].startPrice)
    {
      assert DepositAdvances(w.billing, b', k);
    }
    assert forall k: DepositKey :: k in b'.deposits <==> k in b'.deposits.Keys;
  }

  // A step inside billing that opens no invoice or payout and ends no deposit.
  lemma PlainBillingStepKeeps(w: World, b': Billing)
    requires WorldInv(w) && BillingInv(b') && BillingAdvances(w.billing, b') && b'.deposits == w.billing.deposits
    requires b'.invoices.Keys == w.billing.invoices.Keys && b'.payouts.Keys == w.billing.payouts.Keys
    ensures WorldInv(w.(billing := b')) && Advances(w, w.(billing := b'))
  {
    assert forall d :: d in b'.invoices <==> d in b'.invoices.Keys;
    assert forall d :: d in b'.payouts <==> d in b'.payouts.Keys;
    hide BillingInv, BillingAdvances, Advances;
    BillingKeepsLinks(w, b');
  }

  // ---------- bids ----------

  lemma ReserveForBidOutcome(b: Billing, bidder: CompanyId, a: AuctionId, startPrice: int)
    requires BillingInv(b) && ReserveForBid(b, bidder, a, startPrice).Ok?
    ensures var b', k := ReserveForBid(b, bidder, a, startPrice).value, DepositKey(a, bidder);
            && BillingInv(b') && BillingAdvances(b, b') && SamePapers(b, b')
            && k in b'.deposits && b'.deposits == b.deposits[k := b'.deposits[k]] && b'.deposits[k].status == HELD
            && b'.deposits[k].amount == (if k in b.deposits then b.deposits[k].amount else Money.DepositFromStartPrice(startPrice))
  {
    CreateAccountKeeps(b, bidder);
    var b1 := CreateAccount(b, bidder).value;
    ReserveKeeps(b1, bidder, a, startPrice);
    BillingAdvancesTransitive(b, b1, ReserveForBid(b, bidder, a, startPrice).value);
    hide BillingInv, BillingAdvances;
  }

  // What a bid changes: one more bid, and a deposit for the bidder if there was none.
  ghost predicate BidTaken(w: World, w': World, a: AuctionId, bid: Bid) {
    && a in w.trading.auctions && w.trading.auctions[a].state == Published
    && w'.deals == w.deals
    && TradingInv(w'.trading) && TradingAdvances(w.trading, w'.trading)
    && BillingInv(w'.billing) && BillingAdvances(w.billing, w'.billing) && SamePapers(w.billing, w'.billing)
    && w'.trading.bids == w.trading.bids[a := BidsOf(w.trading, a) + [bid]]
    && var k := DepositKey(a, bid.bidder);
       && k in w'.billing.deposits && w'.billing.deposits == w.billing.deposits[k := w'.billing.deposits[k]]
       && w'.billing.deposits[k].status == HELD
       && (k !in w.billing.deposits ==>
             w'.billing.deposits[k].amount == Money.DepositFromStartPrice(w.trading.auctions[a].startPrice))
  }

  lemma BidOutcome(w: World, a: AuctionId, bidder: CompanyId, amount: int, placedAt: Time, at: Time)
    requires WorldInv(w) && ApplyBid(w, a, bidder, amount, placedAt, at).Ok?
    ensures BidTaken(w, ApplyBid(w, a, bidder, amount, placedAt, at).value, a, Bid(bidder, amount, placedAt))
  {
    WorldParts(w);
    PlaceBidKeeps(w.trading, a, bidder, amount, placedAt, at);
    ReserveForBidOutcome(w.billing, bidder, a, w.trading.auctions[a].startPrice);
    hide TradingInv, TradingAdvances, BillingInv, BillingAdvances, PlaceBid, ReserveForBid;
  }

  lemma BidKeepsDeposits(w: World, w': World, a: AuctionId, bid: Bid)
    requires DepositsMatchBids(w.trading, w.billing) && BidTaken(w, w', a, bid)
    ensures DepositsMatchBids(w'.trading, w'.billing)
  {
    hide TradingInv, BillingInv, Ledger.Sum;
    forall k: DepositKey
      ensures HasBid(w'.trading, k.auction, k.company) <==> HasBid(w.trading, k.auction, k.company) || k == DepositKey(a, bid.bidder)
    {
      BidAdded(w.trading, w'.trading, a, bid, k);
    }
    hide HasBid;
    forall k | k in w'.billing.deposits
      ensures k.auction in w'.trading.auctions
      ensures w'.billing.deposits[k].amount == Money.DepositFromStartPrice(w'.trading.auctions[k.auction].startPrice)
    {
      assert AuctionAdvances(w.trading, w'.trading, k.auction);
      assert k in w.billing.deposits ==> DepositAdvances(w.billing, w'.billing, k);
    }
  }

  lemma BidAdded(ts: Trading, ts': Trading, a: AuctionId, bid: Bid, k: DepositKey)
    requires ts'.bids == ts.bids[a := BidsOf(ts, a) + [bid]]
    ensures HasBid(ts', k.auction, k.company) <==> HasBid(ts, k.auction, k.company) || k == DepositKey(a, bid.bidder)
  {
    if k.auction == a {
      assert BidsOf(ts', a) == BidsOf(ts, a) + [bid];
      assert bid in BidsOf(ts', a);
      assert forall b :: b in BidsOf(ts', a) <==> b in BidsOf(ts, a) || b == bid;
    } else {
      assert BidsOf(ts', k.auction) == BidsOf(ts, k.auction);
    }
  }

  // An auction that has a payout was won, so it takes no more bids.
  lemma SettledAuctionIsWon(w: World, d: DealId)
    requires WorldInv(w) && d in w.billing.payouts
    ensures var a := w.billing.payouts[d].auction;
            a in w.trading.auctions && w.trading.auctions[a].state == Won
  {
    WorldParts(w);
    assert PayoutSettled(w.billing, w.deals, d);
    assert FinalizedOn(w.deals, d);
    LiveIsSelected(w.deals, d);
    assert SelectionAnnounced(w.trading, w.deals.selections[w.deals.deals[d].auction]);
  }

  lemma BidSparesAuction(w: World, w': World, a: AuctionId, bid: Bid, q: AuctionId)
    requires BidTaken(w, w', a, bid) && q != a
    ensures forall k: DepositKey | k.auction == q ::
              (k in w'.billing.deposits <==> k in w.billing.deposits)
              && (k in w.billing.deposits ==> DepositAdvances(w.billing, w'.billing, k))
  {
    hide TradingInv, BillingInv, Ledger.Sum, TradingAdvances;
  }

  lemma BidKeepsPayout(w: World, w': World, a: AuctionId, bid: Bid, d: DealId)
    requires BidTaken(w, w', a, bid) && d in w.billing.payouts && PayoutSettled(w.billing, w.deals, d)
    requires w.billing.payouts[d].auction != a
    ensures d in w'.billing.payouts && PayoutSettled(w'.billing, w'.deals, d)
  {
    BidSparesAuction(w, w', a, bid, w.billing.payouts[d].auction);
    hide TradingInv, BillingInv, Ledger.Sum, FinalizedOn, Money.PlatformFee, TradingAdvances, BillingAdvances;
  }

  lemma BidKeepsEnd(w: World, w': World, a: AuctionId, bid: Bid, k: DepositKey)
    requires EndsExplained(w) && EndsExplained(World(w'.trading, w.billing, w.deals)) && BidTaken(w, w', a, bid) && k in w'.billing.deposits
    ensures EndExplained(w'.trading, w'.billing, w'.deals, k)
  {
    hide Lost, Forfeited, TradingInv, BillingInv, TradingAdvances, BillingAdvances;
    if k in w.billing.deposits {
      assert EndExplained(w'.trading, w.billing, w.deals, k);
    }
  }

  lemma BidKeepsPayouts(w: World, w': World, a: AuctionId, bid: Bid)
    requires WorldInv(w) && BidTaken(w, w', a, bid)
    ensures PayoutsSettled(w'.billing, w'.deals)
  {
    WorldParts(w);
    assert PayoutsSettled(w.billing, w.deals) && w'.billing.payouts == w.billing.payouts;
    assert w.trading.auctions[a].state == Published;
    hide BidTaken, PayoutSettled;
    forall d | d in w'.billing.payouts
      ensures PayoutSettled(w'.billing, w'.deals, d)
    {
      SettledAuctionIsWon(w, d);
      BidKeepsPayout(w, w', a, bid, d);
    }
  }

  lemma BidKeepsEnds(w: World, w': World, a: AuctionId, bid: Bid)
    requires EndsExplained(w) && EndsExplained(World(w'.trading, w.billing, w.deals)) && BidTaken(w, w', a, bid)
    ensures EndsExplained(w')
  {
    forall k | k in w'.billing.deposits
      ensures EndExplained(w'.trading, w'.billing, w'.deals, k)
    {
      BidKeepsEnd(w, w', a, bid, k);
    }
  }

  lemma BidKeeps(w: World, w': World, a: AuctionId, bid: Bid)
    requires WorldInv(w) && BidTaken(w, w', a, bid)
    ensures WorldInv(w') && Advances(w, w')
  {
    WorldParts(w);
    assert w.(trading := w'.trading) == World(w'.trading, w.billing, w.deals);
    TradingKeepsLinks(w, w'.trading);
    BidKeepsDeposits(w, w', a, bid);
    BillingKeepsFinalized(w.billing, w'.billing, w.deals);
    DealsAdvancesReflexive(w.deals);
    BillingKeepsInvoices(w, w'.billing);
    BidKeepsPayouts(w, w', a, bid);
    BidKeepsEnds(w, w', a, bid);
    hide TradingInv, BillingInv, DealsInv, SelectionsAnnounced, FinalizedArePaid, DepositsMatchBids,
         BillingAdvances, DealsAdvances, TradingAdvances, InvoicesMatchDeals, PayoutsSettled, EndsExplained;
    Whole(w');
  }

  // ---------- every step ----------

  lemma TradingStepsKeep(w: World, t: TradingStep)
    requires WorldInv(w) && Enabled(w, Trade(t)) && ApplyTrading(w, t).Ok?
    ensures WorldInv(ApplyTrading(w, t).value) && Advances(w, ApplyTrading(w, t).value)
  {
    WorldParts(w);
    var w' := ApplyTrading(w, t).value;
    var ts := w.trading;
    if t.BidStep? {
      BidOutcome(w, t.a, t.bidder, t.amount, t.placedAt, t.at);
      BidKeeps(w, w', t.a, Bid(t.bidder, t.amount, t.placedAt));
    } else {
      match t {
        case CreateAuctionStep(a, lot, startsAt, endsAt, startPrice, minBidStep) =>
          CreateAuctionKeeps(ts, a, lot, startsAt, endsAt, startPrice, minBidStep);
        case PublishStep(a, at) => PublishAuctionKeeps(ts, a, at);
        case CloseStep(a, privileged, at, listed, ranking) => CloseAuctionOutcome(ts, a, privileged, at, listed, ranking);
        case SellerCancelStep(a, at) => TradingInvariants.CancelKeeps(ts, a, at, SellerCancelAuction(ts, a, at));
        case AdminCancelStep(a, at) => TradingInvariants.CancelKeeps(ts, a, at, AdminCancelAuction(ts, a, at));
        case _ => assert false;
      }
      hide TradingInv, TradingAdvances, Advances, CreateAuction, PublishAuction, CloseAuction, SellerCancelAuction, AdminCancelAuction;
      assert TradingInv(w'.trading) && TradingAdvances(ts, w'.trading) && w'.trading.bids == ts.bids;
      TradingStepKeeps(w, w'.trading);
    }
  }
}
