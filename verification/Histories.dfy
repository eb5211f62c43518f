/**
 Histories of the system, all from the empty state: a sale that is paid out, and one for each promise the program does
 not keep. In all of them auction 7 is won by companies 1 and 2, in that order, while company 3 loses.
 */
module Histories {
  import opened Common
  import opened Wallet
  import opened AuctionDomain
  import opened TradingRules
  import opened BillingRules
  import opened BillingInvariants
  import opened DealDomain
  import opened DealsRules
  import opened DealsInvariants
  import opened Settlement
  import opened SettlementInvariants
  import opened ConfirmationRuns
  import opened Scripts
  import opened ForgottenDeposits
  import Money
  import Ledger
  import AuctionRuns
  import TradingInvariants
  import SelectionDomain
  import DealsOutcomes
  import SettlementRuns
  import Announcements
  import Sales
  import StuckDeals
  import SettlementTheorems
  import DealsAnswers
  import BillingAnswers
  import SettlementAnswers

  const AUCTION: AuctionId := 7
  const SELLER: CompanyId := 9
  const FIRST: CompanyId := 1
  const SECOND: CompanyId := 2
  const LOSER: CompanyId := 3
  const DEAL: DealId := 70

  const BIDS := [Bid(LOSER, 100, 20), Bid(FIRST, 110, 30), Bid(SECOND, 120, 40), Bid(FIRST, 130, 50)]
  const OPENED := AuctionRow(AUCTION, 1, Published, 10, 100_000, 100, 100, 1, NO_ID)

  // ---------- money and bids ----------

  // Everyone who bids can pay the deposit.
  predicate Funded(b: Billing) {
    && NO_ID !in b.topUps
    && (forall c | c in {FIRST, SECOND, LOSER} ::
          && c in b.accounts
          && (DepositKey(AUCTION, c) !in b.deposits ==> b.accounts[c].available >= 5)
          && (DepositKey(AUCTION, c) in b.deposits ==> b.deposits[DepositKey(AUCTION, c)].status == HELD))
  }

  lemma TopUpAccount(w: World, c: CompanyId, payment: PaymentId) returns (w': World)
    requires Good(w) && c != NO_ID && payment != NO_ID && payment !in w.billing.topUps && payment !in w.billing.processed
    ensures Leads(w, w', 0) && w'.trading == w.trading && w'.deals == w.deals
    ensures w'.billing.topUps == w.billing.topUps && w'.billing.deposits == w.billing.deposits
    ensures w'.billing.processed == w.billing.processed + {payment}
    ensures c in w'.billing.accounts && w'.billing.accounts == w.billing.accounts[c := w'.billing.accounts[c]]
    ensures w'.billing.accounts[c].available >= 50
  {
    hide Good, Leads, BillingInv, BillingAdvances, DealsInv, DealsAdvances, CreateAccount, ConfirmTopUp;
    GoodParts(w);
    AccountOpens(w.billing, c);
    var w1 := DoBilling(w, AccountStep(c), 0);
    LeadsTo(w, w1, 0);
    AccountCredited(w1.billing, c, payment);
    w' := DoBilling(w1, TopUpStep(c, 50, payment), 0);
    LeadsOn(w, w1, w', 0);
  }

  lemma AccountOpens(b: Billing, c: CompanyId)
    requires c != NO_ID
    ensures CreateAccount(b, c).Ok?
    ensures var b' := CreateAccount(b, c).value;
            && c in b'.accounts && b'.accounts == b.accounts[c := b'.accounts[c]]
            && b' == b.(accounts := b'.accounts)
  {
  }

  lemma AccountCredited(b: Billing, c: CompanyId, payment: PaymentId)
    requires BillingInv(b) && c != NO_ID && payment != NO_ID && c in b.accounts && payment !in b.processed
    ensures ConfirmTopUp(b, c, 50, payment).Ok?
    ensures var b' := ConfirmTopUp(b, c, 50, payment).value;
            && c in b'.accounts && b'.accounts == b.accounts[c := b'.accounts[c]] && b'.accounts[c].available >= 50
            && b'.topUps == b.topUps && b'.deposits == b.deposits && b'.processed == b.processed + {payment}
  {
  }

  lemma Funds() returns (w: World)
    ensures Good(w) && Reaches(START, w, 0) && w.trading == NO_TRADING && w.deals == NO_DEALS
    ensures Funded(w.billing) && w.billing.deposits == map[]
  {
    hide Good, Leads, Reaches;
    ReachesItself(START, 0);
    ReachedIsGood(START, 0);
    LeadsItself(START, 0);
    var w1 := TopUpAccount(START, FIRST, 11);
    LeadsTo(START, w1, 0);
    var w2 := TopUpAccount(w1, SECOND, 12);
    LeadsTo(w1, w2, 0);
    LeadsOn(START, w1, w2, 0);
    w := TopUpAccount(w2, LOSER, 13);
    LeadsOn(START, w2, w, 0);
    LeadsReach(START, w);
  }

  lemma LeadsReach(w: World, w': World)
    requires Leads(w, w', 0)
    ensures Good(w') && Reaches(w, w', 0)
  {
    hide Good, Reaches;
  }

  // The auction after the first n bids.
  function RowAfter(n: nat): AuctionRow
    requires n <= 4
  {
    if n == 0 then OPENED else OPENED.(currentPrice := BIDS[n - 1].amount, leader := BIDS[n - 1].bidder)
  }

  predicate BidsTaken(w: World, n: nat)
    requires n <= 4
  {
    && w.trading.auctions == map[AUCTION := RowAfter(n)] && BidsOf(w.trading, AUCTION) == BIDS[..n]
    && Funded(w.billing) && w.deals == NO_DEALS
    && (n == 4 ==> forall c | c in {FIRST, SECOND, LOSER} :: DepositKey(AUCTION, c) in w.billing.deposits)
  }

  lemma DepositReserved(b: Billing, c: CompanyId)
    requires Funded(b) && c in {FIRST, SECOND, LOSER}
    ensures ReserveForBid(b, c, AUCTION, 100).Ok?
    ensures var b' := ReserveForBid(b, c, AUCTION, 100).value;
            Funded(b') && DepositKey(AUCTION, c) in b'.deposits && b.deposits.Keys <= b'.deposits.Keys
  {
    hide Ledger.Exists;
    assert Money.DepositFromStartPrice(100) == 5;
  }

  lemma NextBid(w: World, n: nat) returns (w': World)
    requires Good(w) && n < 4 && BidsTaken(w, n)
    requires n == 3 ==> DepositKey(AUCTION, LOSER) in w.billing.deposits && DepositKey(AUCTION, SECOND) in w.billing.deposits
    ensures Leads(w, w', 0) && BidsTaken(w', n + 1)
    ensures w.billing.deposits.Keys <= w'.billing.deposits.Keys && DepositKey(AUCTION, BIDS[n].bidder) in w'.billing.deposits
  {
    hide Good, Leads, ReserveForBid, Funded;
    var b := BIDS[n];
    DepositReserved(w.billing, b.bidder);
    BidAccepted(w.trading, n);
    hide PlaceBid;
    Do(w, Trade(BidStep(AUCTION, b.bidder, b.amount, b.placedAt, b.placedAt)), 0);
    w' := ApplyBid(w, AUCTION, b.bidder, b.amount, b.placedAt, b.placedAt).value;
  }

  lemma BidAccepted(ts: Trading, n: nat)
    requires n < 4 && ts.auctions == map[AUCTION := RowAfter(n)] && BidsOf(ts, AUCTION) == BIDS[..n]
    ensures var b := BIDS[n];
            var r := PlaceBid(ts, AUCTION, b.bidder, b.amount, b.placedAt, b.placedAt);
            r.Ok? && r.value.auctions == map[AUCTION := RowAfter(n + 1)] && BidsOf(r.value, AUCTION) == BIDS[..n + 1]
  {
    assert BIDS[..n + 1] == BIDS[..n] + [BIDS[n]];
  }

  lemma AuctionOpened() returns (w: World)
    ensures Good(w) && Reaches(START, w, 0) && BidsTaken(w, 0) && w.billing.deposits == map[]
  {
    hide Good, Leads, Reaches, Funded;
    var w0 := Funds();
    LeadsItself(w0, 0);
    Do(w0, Trade(CreateAuctionStep(AUCTION, 1, 10, 100_000, 100, 1)), 0);
    var w1 := ApplyTrading(w0, CreateAuctionStep(AUCTION, 1, 10, 100_000, 100, 1)).value;
    LeadsReach(w0, w1);
    Do(w1, Trade(PublishStep(AUCTION, 10)), 0);
    w := ApplyTrading(w1, PublishStep(AUCTION, 10)).value;
    LeadsReach(w1, w);
    ReachesOn(START, w0, w1, 0);
    ReachesOn(START, w1, w, 0);
  }

  lemma AllBids() returns (w: World)
    ensures Good(w) && Reaches(START, w, 0) && BidsTaken(w, 4)
  {
    hide Good, Leads, Reaches, BidsTaken;
    var w0 := AuctionOpened();
    var w1 := NextBid(w0, 0);
    LeadsReach(w0, w1);
    var w2 := NextBid(w1, 1);
    LeadsReach(w1, w2);
    var w3 := NextBid(w2, 2);
    LeadsReach(w2, w3);
    w := NextBid(w3, 3);
    LeadsReach(w3, w);
    ReachesOn(START, w0, w1, 0);
    ReachesOn(START, w1, w2, 0);
    ReachesOn(START, w2, w3, 0);
    ReachesOn(START, w3, w, 0);
  }

  const RANKING := [BIDS[3], BIDS[2], BIDS[1], BIDS[0]]

  lemma OneMoreAppearance(bids: seq<Bid>, b: Bid)
    ensures FirstAppearances(bids + [b])
         == if b.bidder == NO_ID || b.bidder in FirstAppearances(bids) then FirstAppearances(bids) else FirstAppearances(bids) + [b.bidder]
  {
    assert (bids + [b])[..|bids|] == bids;
  }

  // The top three rows belong to two companies.
  lemma CandidatesOfBids()
    ensures Candidates(RANKING) == [FIRST, SECOND]
  {
    OneMoreAppearance([], BIDS[3]);
    OneMoreAppearance([BIDS[3]], BIDS[2]);
    OneMoreAppearance([BIDS[3], BIDS[2]], BIDS[1]);
    assert [] + [BIDS[3]] == [BIDS[3]];
    assert [BIDS[3]] + [BIDS[2]] == [BIDS[3], BIDS[2]];
    assert [BIDS[3], BIDS[2]] + [BIDS[1]] == Top(RANKING, MAX_CANDIDATES);
  }

  lemma RankingOfBids()
    ensures AuctionRuns.Reverse(BIDS) == RANKING && Ranked(RANKING, BIDS)
  {
    assert AuctionRuns.Rising(BIDS, 1);
    TradingInvariants.ReverseIsRanked(BIDS, 1);
  }

  const WON := Posted(AuctionWon(AUCTION, [FIRST, SECOND], 130), 60)

  lemma ResultAnnounced(ts: Trading)
    requires TradingInvariants.TradingInv(ts) && ts.auctions == map[AUCTION := RowAfter(4)] && BidsOf(ts, AUCTION) == BIDS
    requires AuctionRuns.Reverse(BIDS) == RANKING && Ranked(RANKING, BIDS) && Candidates(RANKING) == [FIRST, SECOND]
    ensures CloseAuction(ts, AUCTION, true, 60, RANKING, RANKING).Ok?
    ensures WON in CloseAuction(ts, AUCTION, true, 60, RANKING, RANKING).value.outbox
  {
    hide Candidates, Ranked, TradingInvariants.TradingAdvances;
    assert CloseAuction(ts, AUCTION, true, 60, RANKING, RANKING).Ok?;
    TradingInvariants.CloseAuctionOutcome(ts, AUCTION, true, 60, RANKING, RANKING);
  }

  lemma ClosesOn(w: World)
    requires Good(w) && BidsTaken(w, 4)
    ensures Enabled(w, Trade(CloseStep(AUCTION, true, 60, RANKING, RANKING)))
    ensures CloseAuction(w.trading, AUCTION, true, 60, RANKING, RANKING).Ok?
    ensures WON in CloseAuction(w.trading, AUCTION, true, 60, RANKING, RANKING).value.outbox
  {
    hide Good, WorldInv, Funded, Candidates, Ranked, CloseAuction;
    GoodParts(w);
    WorldParts(w);
    hide TradingInvariants.TradingInv;
    RankingOfBids();
    CandidatesOfBids();
    assert BIDS[..4] == BIDS;
    ResultAnnounced(w.trading);
  }

  lemma AuctionClosed() returns (w: World)
    ensures Good(w) && Reaches(START, w, 0) && WON in w.trading.outbox && w.deals == NO_DEALS && Funded(w.billing)
    ensures forall c | c in {FIRST, SECOND, LOSER} :: DepositKey(AUCTION, c) in w.billing.deposits
  {
    hide Good, Leads, Reaches, Funded, Candidates, Ranked, CloseAuction, RowAfter, Enabled;
    var w0 := AllBids();
    ClosesOn(w0);
    Do(w0, Trade(CloseStep(AUCTION, true, 60, RANKING, RANKING)), 0);
    w := w0.(trading := CloseAuction(w0.trading, AUCTION, true, 60, RANKING, RANKING).value);
    LeadsReach(w0, w);
    ReachesOn(START, w0, w, 0);
  }

  // The result has reached deals: the first winner's deal is waiting to be confirmed, and everyone's deposit is HELD.
  predicate FirstDealOpen(w: World) {
    && CurrentPending(w.deals, DEAL) && w.deals.deals.Keys == {DEAL} && w.deals.confirmations == map[]
    && w.deals.deals[DEAL].auction == AUCTION && w.deals.deals[DEAL].customer == FIRST && w.deals.deals[DEAL].supplier == SELLER
    && w.deals.selections[AUCTION].candidates == [FIRST, SECOND] && w.deals.selections[AUCTION].currentIndex == 0
    && w.deals.selections[AUCTION].supplier == SELLER
    && WON in w.trading.outbox
    && (forall c | c in {FIRST, SECOND, LOSER} ::
          DepositKey(AUCTION, c) in w.billing.deposits && w.billing.deposits[DepositKey(AUCTION, c)].status == HELD)
  }

  lemma DealOpens(ds: Deals)
    requires ds == NO_DEALS
    ensures CreateProjection(ds, AUCTION, SELLER, true, 100, 10).Ok?
    ensures var ds1 := CreateProjection(ds, AUCTION, SELLER, true, 100, 10).value;
            var r := CreateDealSelection(ds1, AUCTION, [FIRST, SECOND], 130, 60, DEAL);
            && ds1.deals == map[]
            && r.Ok? && CurrentPending(r.value, DEAL) && r.value.deals.Keys == {DEAL} && r.value.confirmations == map[]
            && r.value.deals[DEAL].auction == AUCTION && r.value.deals[DEAL].customer == FIRST && r.value.deals[DEAL].supplier == SELLER
            && r.value.selections[AUCTION].candidates == [FIRST, SECOND] && r.value.selections[AUCTION].currentIndex == 0
            && r.value.selections[AUCTION].supplier == SELLER
  {
  }

  lemma FirstDeal() returns (w: World)
    ensures Good(w) && Reaches(START, w, 0) && FirstDealOpen(w)
  {
    hide Good, Leads, Reaches, CreateProjection, CreateDealSelection, CurrentPending;
    var w0 := AuctionClosed();
    DealOpens(w0.deals);
    var w1 := DoCommand(w0, ProjectStep(AUCTION, SELLER, true, 100, 10), 0);
    LeadsReach(w0, w1);
    w := DoDelivery(w1, OpenSelection(WON, DEAL), 0);
    LeadsReach(w1, w);
    ReachesOn(START, w0, w1, 0);
    ReachesOn(START, w1, w, 0);
  }

  // ---------- a sale ----------

  // A history in which the seller is paid.
  lemma SaleIsPaidOut() returns (w: World)
    ensures Good(w) && Reaches(START, w, 0)
    ensures DEAL in w.billing.payouts && w.billing.payouts[DEAL].status == PayoutPaid && w.billing.payouts[DEAL].auction == AUCTION
  {
    hide Good, Leads, Reaches;
    var w0 := FirstDeal();
    w := SellPending(w0, DEAL, 0);
    LeadsReach(w0, w);
    ReachesOn(START, w0, w, 0);
    DealStays(w0, w, DEAL);
    PayoutsAuction(w, DEAL);
  }

  lemma DealStays(w: World, w': World, d: DealId)
    requires Leads(w, w', 0) && d in w.deals.deals
    ensures d in w'.deals.deals && w'.deals.deals[d].auction == w.deals.deals[d].auction
  {
    hide Good, Reaches;
    Announcements.AdvancesInDeals(w, w');
    RowAdvances(w.deals, w'.deals, d);
  }

  lemma PayoutsAuction(w: World, d: DealId)
    requires Good(w) && d in w.billing.payouts
    ensures d in w.deals.deals && w.billing.payouts[d].auction == w.deals.deals[d].auction && Settled(w.billing, w.deals.deals[d].auction)
  {
    hide Good, DealsInv, BillingInv;
    GoodParts(w);
    WorldParts(w);
    assert PayoutSettled(w.billing, w.deals, d);
  }

  // A winner who does not confirm in time loses the deposit.
  lemma TimedOutWinnerForfeits() returns (w: World)
    ensures Good(w) && Reaches(START, w, 0) && DealCancelled(DEAL, ConfirmationTimeout) in w.deals.outbox
    ensures DepositKey(AUCTION, FIRST) in w.billing.deposits && w.billing.deposits[DepositKey(AUCTION, FIRST)].status == CAPTURED
  {
    hide Good, Leads, Reaches, WorldInv, DealsInv, BillingInv, RequestsOk, CaptureAuctionDeposit;
    var w0 := FirstDeal();
    GoodParts(w0);
    DealsAnswers.CancelDealIff(w0.deals, DEAL, ConfirmationTimeout, Some(System));
    var w1 := DoCommand(w0, CancelStep(DEAL, ConfirmationTimeout, Some(System)), 0);
    LeadsReach(w0, w1);
    ReachesOn(START, w0, w1, 0);
    GoodParts(w1);
    var e := WinnerRejected(DEAL, AUCTION, FIRST, ConfirmationTimeout);
    assert w1.deals.outbox[|w0.deals.outbox|] == DealCancelled(DEAL, ConfirmationTimeout);
    assert w1.deals.outbox[|w0.deals.outbox| + 1] == e;
    ForfeitureAccepted(w1, e);
    w := DoDelivery(w1, RejectedWinner(e), 0);
    LeadsReach(w1, w);
    ReachesOn(START, w1, w, 0);
  }

  lemma ForfeitureAccepted(w: World, e: DealEvent)
    requires WorldInv(w) && e in w.deals.outbox && e.WinnerRejected?
    requires DepositKey(e.auction, e.company) in w.billing.deposits && w.billing.deposits[DepositKey(e.auction, e.company)].status == HELD
    ensures var r := CaptureAuctionDeposit(w.billing, e.company, e.auction);
            && r.Ok? && DepositKey(e.auction, e.company) in r.value.deposits
            && r.value.deposits[DepositKey(e.auction, e.company)].status == CAPTURED
  {
    hide WorldInv, CaptureAuctionDeposit, Settled;
    SettlementRuns.RejectedWinnerOutcome(w, e);
    if Settled(w.billing, e.auction) {
      SettlementRuns.SettledHoldsNothing(w, e.auction, DepositKey(e.auction, e.company));
    }
  }

  // A winner who does not pay in time is passed over, and the second one buys.
  lemma NextOneBuysAfterExpiry() returns (w: World)
    ensures Good(w) && Reaches(START, w, 0) && DealCancelled(DEAL, PaymentTimeout) in w.deals.outbox
    ensures DEAL + 1 in w.deals.deals && w.deals.deals[DEAL + 1].customer == SECOND && PaidOut(w.billing, DEAL + 1)
  {
    hide Good, Leads, Reaches, WorldInv, DealsInv, BillingInv, RequestsOk, Announcements.DealsAnnounced, Announcements.ReceiptsAnnounced;
    var w0 := FirstDeal();
    var w1 := InvoiceOpen(w0, DEAL, 31);
    LeadsReach(w0, w1);
    ReachesOn(START, w0, w1, 0);
    DealStays(w0, w1, DEAL);
    NoRequestYet(w1, DEAL + 1);
    var w2 := PassedOver(w1, DEAL, DEAL + 1);
    LeadsReach(w1, w2);
    ReachesOn(START, w1, w2, 0);
    w := SellPending(w2, DEAL + 1, 0);
    LeadsReach(w2, w);
    ReachesOn(START, w2, w, 0);
    DealStays(w2, w, DEAL + 1);
    LeadsTo(w2, w, 0);
    RowAdvances(w2.deals, w.deals, DEAL + 1);
  }

  lemma NoRequestYet(w: World, d: DealId)
    requires Good(w) && d !in w.deals.deals
    ensures forall c | c in w.deals.confirmations :: w.deals.confirmations[c].deal != d
  {
    hide Good;
    GoodParts(w);
    forall c | c in w.deals.confirmations
      ensures w.deals.confirmations[c].deal != d
    {
      RequestNamed(w.deals, c);
    }
  }

  // The invoice of deal d expires, and the next candidate gets deal newDeal.
  lemma PassedOver(w: World, d: DealId, newDeal: DealId) returns (w': World)
    requires Good(w) && d in w.billing.invoices && w.billing.invoices[d].status == InvoicePaymentPending && FreshDeal(w, newDeal)
    requires d in w.deals.deals && w.deals.deals[d].status == PaymentRequested && w.deals.deals[d].auction in w.deals.selections
    requires var sel := w.deals.selections[w.deals.deals[d].auction];
             0 <= sel.currentIndex && sel.currentIndex + 1 < |sel.candidates| && sel.candidates[sel.currentIndex + 1] != sel.supplier
    requires forall c | c in w.deals.confirmations :: w.deals.confirmations[c].deal != newDeal
    ensures Leads(w, w', 0) && DealCancelled(d, PaymentTimeout) in w'.deals.outbox
    ensures newDeal in w'.deals.deals && w'.deals.deals[newDeal].status == Pending && !ConfirmationOverdue(w'.deals, newDeal, 0)
    ensures var sel, row := w.deals.selections[w.deals.deals[d].auction], w'.deals.deals[newDeal];
            row.customer == sel.candidates[sel.currentIndex + 1] && row.customer != row.supplier
  {
    hide Good, Leads, WorldInv, DealsInv, BillingInv, RequestsOk, Announcements.DealsAnnounced, Announcements.ReceiptsAnnounced,
         ConfirmDealInvoicePaid, ExpireDealInvoice, HandleDealInvoiceExpired, OpenedAfterExpiry, ConfirmationOverdue;
    GoodParts(w);
    var i := w.billing.invoices[d];
    BillingAnswers.ExpireDealInvoiceIff(w.billing, d, i.dueAt);
    var w1 := DoBilling(w, InvoiceExpiredStep(d, i.dueAt), 0);
    var e := DealInvoiceExpired(d, i.auction, i.buyer, i.goods + i.feeDue);
    assert w1.billing.outbox[|w.billing.outbox|] == e;
    LeadsGood(w, w1, 0);
    GoodParts(w1);
    SettlementAnswers.ExpiredInvoiceDeal(w1, e);
    ExpiryOpensNext(w1.deals, d, newDeal);
    w' := DoDelivery(w1, ExpiredInvoice(e, newDeal), 0);
    LeadsOn(w, w1, w', 0);
    OpenedMeans(w.deals, w'.deals, d, newDeal);
  }

  // Deal d has been cancelled for the timeout, and the next candidate has deal newDeal.
  predicate OpenedAfterExpiry(ds: Deals, ds': Deals, d: DealId, newDeal: DealId) {
    && d in ds.deals && ds.deals[d].auction in ds.selections && DealCancelled(d, PaymentTimeout) in ds'.outbox
    && ds'.confirmations == ds.confirmations
    && var sel := ds.selections[ds.deals[d].auction];
       && 0 <= sel.currentIndex && sel.currentIndex + 1 < |sel.candidates|
       && newDeal in ds'.deals && ds'.deals[newDeal].status == Pending
       && ds'.deals[newDeal].customer == sel.candidates[sel.currentIndex + 1] && ds'.deals[newDeal].supplier == sel.supplier
  }

  lemma ExpiryOpensNext(ds: Deals, d: DealId, newDeal: DealId)
    requires DealsInv(ds) && d in ds.deals && ds.deals[d].status == PaymentRequested && newDeal != NO_ID && newDeal !in ds.deals
    requires ds.deals[d].auction in ds.selections
    requires var sel := ds.selections[ds.deals[d].auction]; 0 <= sel.currentIndex && sel.currentIndex + 1 < |sel.candidates|
    ensures var r := HandleDealInvoiceExpired(ds, d, ds.deals[d].auction, ds.deals[d].customer, newDeal);
            r.Ok? && OpenedAfterExpiry(ds, r.value, d, newDeal)
  {
    hide DealsInv, HandleDealInvoiceExpired;
    var row := ds.deals[d];
    DealStatusImpliesSelection(ds, d);
    DealsAnswers.StoredDeal(ds, d);
    DealsAnswers.HandleDealInvoiceExpiredIff(ds, d, row.auction, row.customer, newDeal);
    assert HandleDealInvoiceExpired(ds, d, row.auction, row.customer, newDeal).value.outbox[|ds.outbox|] == DealCancelled(d, PaymentTimeout);
  }

  lemma OpenedMeans(ds: Deals, ds': Deals, d: DealId, newDeal: DealId)
    requires OpenedAfterExpiry(ds, ds', d, newDeal) && forall c | c in ds.confirmations :: ds.confirmations[c].deal != newDeal
    ensures DealCancelled(d, PaymentTimeout) in ds'.outbox && newDeal in ds'.deals && ds'.deals[newDeal].status == Pending
    ensures !ConfirmationOverdue(ds', newDeal, 0)
    ensures var sel := ds.selections[ds.deals[d].auction];
            ds'.deals[newDeal].customer == sel.candidates[sel.currentIndex + 1] && ds'.deals[newDeal].supplier == sel.supplier
  {
  }

  // ---------- promises that are not kept ----------

  const FORFEITURE := WinnerRejected(DEAL, AUCTION, FIRST, WinnerRejectedReason)

  // The first winner is rejected: the second one has a deal, and the forfeiture waits to be delivered.
  lemma FirstRejected() returns (w: World)
    ensures Good(w) && Reaches(START, w, 0) && FORFEITURE in w.deals.outbox && WON in w.trading.outbox
    ensures w.deals.confirmations == map[] && w.deals.deals.Keys <= {DEAL, DEAL + 1} && CurrentPending(w.deals, DEAL + 1)
    ensures w.deals.deals[DEAL + 1].auction == AUCTION
    ensures w.deals.deals[DEAL + 1].customer == SECOND && w.deals.deals[DEAL + 1].supplier == SELLER
    ensures w.deals.selections[AUCTION].candidates == [FIRST, SECOND] && w.deals.selections[AUCTION].currentIndex == 1
    ensures forall c | c in {FIRST, SECOND, LOSER} ::
              DepositKey(AUCTION, c) in w.billing.deposits && w.billing.deposits[DepositKey(AUCTION, c)].status == HELD
  {
    hide Good, Leads, Reaches;
    var w0 := FirstDeal();
    w := RejectWinner(w0, DEAL, DEAL + 1, 0);
    LeadsReach(w0, w);
    ReachesOn(START, w0, w, 0);
    SecondDealPending(w);
  }

  // A forfeiture that arrives after another candidate has paid is refused.
  lemma SettledRefusesForfeiture(w: World, e: DealEvent)
    requires Good(w) && e in w.deals.outbox && e.WinnerRejected? && Settled(w.billing, e.auction)
    requires DepositKey(e.auction, e.company) in w.billing.deposits
    requires w.billing.deposits[DepositKey(e.auction, e.company)].status == RELEASED
    ensures ApplyDelivery(w, RejectedWinner(e)) == Err(ErrDepositNotHeld)
  {
    hide Good, WorldInv, DealsInv, BillingInv, RequestsOk, CaptureAuctionDeposit, Settled;
    GoodParts(w);
    SettlementRuns.RejectedWinnerOutcome(w, e);
  }

  // The second one buys. When the forfeiture of the first is delivered only then, his deposit has been given back and
  // the forfeiture is refused.
  lemma LateForfeitureIsRefused() returns (w: World, e: DealEvent)
    ensures Good(w) && Reaches(START, w, 0)
    ensures e in w.deals.outbox && e.WinnerRejected? && e.auction == AUCTION && e.company == FIRST
    ensures DepositKey(AUCTION, FIRST) in w.billing.deposits && w.billing.deposits[DepositKey(AUCTION, FIRST)].status == RELEASED
    ensures ApplyDelivery(w, RejectedWinner(e)) == Err(ErrDepositNotHeld)
  {
    hide Good, Leads, Reaches, ApplyDelivery, WorldInv, RequestsOk, DealsInv, BillingInv;
    e := FORFEITURE;
    var w1 := FirstRejected();
    GoodParts(w1);
    NotYetPaidOut(w1, DEAL + 1);
    w := SellPending(w1, DEAL + 1, 0);
    LeadsReach(w1, w);
    ReachesOn(START, w1, w, 0);
    StillEmitted(w1, w, e);
    DealStays(w1, w, DEAL + 1);
    PayoutsAuction(w, DEAL + 1);
    SettledRefusesForfeiture(w, e);
  }

  lemma SecondDealPending(w: World)
    requires Good(w) && w.deals.confirmations == map[]
    requires AUCTION in w.deals.selections && DEAL + 1 in w.deals.deals
    requires var sel := w.deals.selections[AUCTION];
             && sel.candidates == [FIRST, SECOND] && sel.currentIndex == 1 && sel.status == SelectionDomain.Active && sel.deal == DEAL + 1
             && sel.auction == AUCTION && sel.supplier == SELLER && DealsOutcomes.FreshRow(w.deals.deals[DEAL + 1], DEAL + 1, sel)
    ensures CurrentPending(w.deals, DEAL + 1) && w.deals.deals[DEAL + 1].auction == AUCTION
    ensures w.deals.deals[DEAL + 1].customer == SECOND && w.deals.deals[DEAL + 1].supplier == SELLER
  {
  }

  lemma StillEmitted(w: World, w': World, e: DealEvent)
    requires Leads(w, w', 0) && e in w.deals.outbox
    ensures e in w'.deals.outbox
  {
    assert w.deals.outbox <= w'.deals.outbox;
  }

  // A deal is cancelled while its invoice waits; the buyer pays; the payment finds no deal to pay for.
  lemma PaidForCancelledDeal() returns (w: World, e: BillingEvent)
    ensures Good(w) && Reaches(START, w, 0)
    ensures e in w.billing.outbox && e.DealInvoicePaid? && e.deal == DEAL && e.amount > 0
    ensures DEAL in w.deals.deals && w.deals.deals[DEAL].status == Cancelled
    ensures ApplyDelivery(w, PaidInvoice(e)) == Err(ErrDealCancelledPayment)
  {
    hide Good, Leads, Reaches, WorldInv, DealsInv, BillingInv, RequestsOk;
    var w0 := FirstDeal();
    var w1 := InvoiceOpen(w0, DEAL, 31);
    LeadsReach(w0, w1);
    ReachesOn(START, w0, w1, 0);
    var w2 := CancelledByOperator(w1, DEAL);
    LeadsReach(w1, w2);
    ReachesOn(START, w1, w2, 0);
    w := PayInvoice(w2, DEAL, 0);
    LeadsReach(w2, w);
    ReachesOn(START, w2, w, 0);
    GoodParts(w);
    assert Announcements.ReceiptAnnounced(w.billing, DEAL);
    e :| e in w.billing.outbox && e.DealInvoicePaid? && e.deal == DEAL;
    PaymentNamesParties(w, e);
  }

  // Up to an invoice that waits for its payment.
  lemma InvoiceOpen(w: World, d: DealId, c: ConfirmationId) returns (w': World)
    requires Good(w) && CurrentPending(w.deals, d) && w.deals.deals[d].customer != w.deals.deals[d].supplier
    requires c != NO_ID && w.deals.confirmations == map[]
    ensures Leads(w, w', 0) && d in w'.billing.invoices && w'.billing.invoices[d].status == InvoicePaymentPending
    ensures d in w'.deals.deals && w'.deals.deals[d].status == PaymentRequested && d != NO_ID
    ensures w'.deals.deals.Keys == w.deals.deals.Keys && w.deals.deals[d].auction in w.deals.selections
    ensures var a := w.deals.deals[d].auction;
            w'.deals.selections == w.deals.selections[a := w.deals.selections[a].(status := SelectionDomain.ConfirmedPendingPayment)]
  {
    hide Good, Leads, WorldInv, DealsInv, BillingInv, RequestsOk;
    GoodParts(w);
    SupplierNamed(w.deals, d);
    NothingBilled(w, d);
    var w1 := Confirm(w, d, c, 0);
    LeadsTo(w, w1, 0);
    var w2 := RequestPaid(w1, d, 0);
    LeadsTo(w1, w2, 0);
    LeadsOn(w, w1, w2, 0);
    w' := Invoice(w2, d, 0);
    LeadsOn(w, w2, w', 0);
  }

  lemma CancelledByOperator(w: World, d: DealId) returns (w': World)
    requires Good(w) && d in w.deals.deals && d != NO_ID && w.deals.deals[d].status == PaymentRequested
    ensures Leads(w, w', 0) && w'.billing == w.billing && d in w'.deals.deals && w'.deals.deals[d].status == Cancelled
  {
    hide Good, Leads;
    w' := DoCommand(w, CancelStep(d, OtherReason(1), Some(System)), 0);
  }

  lemma PaymentNamesParties(w: World, e: BillingEvent)
    requires WorldInv(w) && e in w.billing.outbox && e.DealInvoicePaid?
    ensures e.deal != NO_ID && e.auction != NO_ID && e.buyer != NO_ID && e.amount > 0
  {
    hide DealsInv, HandleDealInvoicePaid;
    WorldParts(w);
    SettlementRuns.PaidInvoiceOutcome(w, e);
    SettlementRuns.PaidEventBacked(w.billing, e);
    Announcements.PaidInvoiceWellFormed(w.billing, e.deal);
    SupplierNamed(w.deals, e.deal);
    DealsOutcomes.BuyerNamed(w.deals, e.deal);
  }

  // Buyer and seller agree to cancel the confirmed deal with a comment that reads like a payment timeout: the auction is
  // stranded on it, although a second candidate is left.
  lemma CommentStrandsAuction() returns (w: World)
    ensures Good(w) && Reaches(START, w, 0) && StuckDeals.Stranded(w.deals, DEAL)
    ensures w.deals.deals[DEAL].auction == AUCTION
    ensures w.deals.selections[AUCTION].candidates == [FIRST, SECOND] && w.deals.selections[AUCTION].currentIndex == 0
  {
    hide Good, Leads, Reaches, WorldInv, DealsInv, BillingInv, RequestsOk;
    var w0 := FirstDeal();
    var w1 := Confirm(w0, DEAL, 31, 0);
    LeadsReach(w0, w1);
    ReachesOn(START, w0, w1, 0);
    w := CancelledByAgreement(w1, DEAL, 32);
    LeadsReach(w1, w);
    ReachesOn(START, w1, w, 0);
  }

  lemma CancelledByAgreement(w: World, d: DealId, c: ConfirmationId) returns (w': World)
    requires Good(w) && d in w.deals.deals && w.deals.deals[d].status == DealStatus.Confirmed
    requires w.deals.deals[d].customer != w.deals.deals[d].supplier
    requires c != NO_ID && c !in w.deals.confirmations && Free(w.deals, d, StageCancelled)
    ensures Leads(w, w', 0) && StuckDeals.Stranded(w'.deals, d) && w'.deals.selections == w.deals.selections
    ensures w'.deals.deals[d].auction == w.deals.deals[d].auction
  {
    hide Good, Leads, DealsInv, BillingInv, Free, RequestsOk, WorldInv, DealsAdvances, BillingAdvances, StuckDeals.Stranded;
    GoodParts(w);
    var w1 := Ask(w, d, c, StageCancelled, PaymentTimeout, None, 0);
    LeadsTo(w, w1, 0);
    AgreementStrands(w1.deals, d, c);
    w' := DoCommand(w1, ApproveStep(d, c, w.deals.deals[d].customer, 1, 0), 0);
    LeadsOn(w, w1, w', 0);
  }

  // The buyer agrees to the seller's request to cancel with the comment of a payment timeout.
  lemma AgreementStrands(ds: Deals, d: DealId, c: ConfirmationId)
    requires DealsInv(ds) && RequestsOk(ds) && d in ds.deals && ds.deals[d].status == DealStatus.Confirmed && c in ds.confirmations
    requires var row := ds.deals[d];
             ds.confirmations[c]
             == ConfirmationRow(c, d, StageCancelled, 1, row.supplier, row.customer, PaymentTimeout, None, AwaitingApproval)
    ensures ApproveDealConfirmation(ds, d, c, ds.deals[d].customer, 1, 0).Ok?
    ensures var ds' := ApproveDealConfirmation(ds, d, c, ds.deals[d].customer, 1, 0).value;
            StuckDeals.Stranded(ds', d) && ds'.selections == ds.selections && ds'.deals[d].auction == ds.deals[d].auction
  {
    hide DealsInv, RequestsOk, DealsOutcomes.CancelledBy, StuckDeals.Stranded, Attempts;
    var row := ds.deals[d];
    SupplierNamed(ds, d);
    ApproveSucceedsIff(ds, d, c, row.customer, 1, 0);
    DealsOutcomes.ApproveCases(ds, d, c, row.customer, 1, 0);
    hide ApproveDealConfirmation;
    CancellationStrands(ds, ApproveDealConfirmation(ds, d, c, row.customer, 1, 0).value, d, Party(row.supplier), [ConfirmationApproved(c, d)]);
  }

  lemma CancellationStrands(ds: Deals, ds': Deals, d: DealId, actor: Actor, earlier: seq<DealEvent>)
    requires DealsInv(ds) && DealsOutcomes.CancelledBy(ds, ds', d, PaymentTimeout, actor, earlier) && ds.deals[d].status == DealStatus.Confirmed
    ensures StuckDeals.Stranded(ds', d) && ds'.selections == ds.selections && ds'.deals[d].auction == ds.deals[d].auction
  {
    hide DealsInv, DealRow.Cancel, Attempts;
    CurrentDeal(ds, d);
    DealsOutcomes.DealKeyed(ds, d);
    NotCancelledYet(ds, d);
    DealsOutcomes.CancelEvents(ds.deals[d], PaymentTimeout, actor);
  }

  lemma NotCancelledYet(ds: Deals, d: DealId)
    requires DealsInv(ds) && d in ds.deals && ds.deals[d].status != Cancelled
    ensures forall e | e in ds.outbox && e.DealCancelled? :: e.deal != d
  {
    DealsParts(ds);
    forall e | e in ds.outbox && e.DealCancelled?
      ensures e.deal != d
    {
      assert DealEventOk(ds, e);
    }
  }

  // A request that nobody answers in time waits for ever.
  lemma RequestOverdue() returns (w: World)
    ensures Good(w) && Reaches(START, w, 0) && Overdue(w.deals, 31, 6)
    ensures w.deals.confirmations[31].deal == DEAL && w.deals.confirmations[31].stage == StageConfirmed
  {
    hide Good, Leads, Reaches;
    var w0 := FirstDeal();
    w := Ask(w0, DEAL, 31, StageConfirmed, NoReason, Some(5), 0);
    LeadsReach(w0, w);
    ReachesOn(START, w0, w, 0);
  }

  // A contract is prepared before the deal is confirmed: it can never be paid, although its auction waits for it.
  lemma ContractCameTooEarly() returns (w: World)
    ensures Good(w) && Reaches(START, w, 0) && DEAL in w.deals.deals && w.deals.deals[DEAL].status == ContractPrepared
    ensures Sales.ContractCameFirst(w.deals.deals[DEAL])
    ensures AUCTION in w.deals.selections && w.deals.selections[AUCTION].status == SelectionDomain.Active && w.deals.selections[AUCTION].deal == DEAL
  {
    hide Good, Leads, Reaches, DealsInv, BillingInv, WorldInv, RequestsOk;
    var w0 := FirstDeal();
    GoodParts(w0);
    Sales.ContractCanComeFirst(w0.deals, DEAL, 1, 70);
    w := DoCommand(w0, PrepareContractStep(DEAL, 1, 70), 0);
    LeadsReach(w0, w);
    ReachesOn(START, w0, w, 0);
  }

  // Both winners are rejected before the losers' release is delivered.
  lemma LoserIsForgotten() returns (w: World)
    ensures Good(w) && Reaches(START, w, 0) && WON in w.trading.outbox
    ensures Forgotten(w, DepositKey(AUCTION, LOSER)) && !ForfeitureEmitted(w.deals, DepositKey(AUCTION, LOSER))
  {
    hide Good, Leads, Reaches, WorldInv, DealsInv, BillingInv, RequestsOk, ForfeitureEmitted;
    var w1 := FirstRejected();
    w := RejectWinner(w1, DEAL + 1, DEAL + 2, 0);
    LeadsReach(w1, w);
    ReachesOn(START, w1, w, 0);
    GoodParts(w);
    LosersAreNotForfeited(w, DepositKey(AUCTION, LOSER));
  }

  // The administrator cancels the auction after it has taken bids: everyone's deposit stays HELD.
  lemma CancelledAuctionKeepsDeposits() returns (w: World)
    ensures Good(w) && Reaches(START, w, 0)
    ensures forall c | c in {FIRST, SECOND, LOSER} ::
              Forgotten(w, DepositKey(AUCTION, c)) && !ForfeitureEmitted(w.deals, DepositKey(AUCTION, c))
  {
    hide Good, Leads, Reaches, WorldInv, DealsInv, BillingInv, RequestsOk;
    var w0 := AllBids();
    Do(w0, Trade(AdminCancelStep(AUCTION, 60)), 0);
    w := ApplyTrading(w0, AdminCancelStep(AUCTION, 60)).value;
    LeadsReach(w0, w);
    ReachesOn(START, w0, w, 0);
  }

  lemma NothingForfeitedYet(w: World)
    requires Good(w) && FirstDealOpen(w)
    ensures !ForfeitureEmitted(w.deals, DepositKey(AUCTION, FIRST))
  {
    hide Good, DealsInv, BillingInv, WorldInv;
    GoodParts(w);
    LiveNotForfeited(w.deals, DEAL);
    if ForfeitureEmitted(w.deals, DepositKey(AUCTION, FIRST)) {
      EmittedMeansForfeited(w.deals, DepositKey(AUCTION, FIRST));
      assert false;
    }
  }

  // The seller cancels the first winner's deal, which forfeits nothing, and the second winner is rejected: the first one's
  // deposit stays HELD.
  lemma SellersCancellationKeepsDeposit() returns (w: World)
    ensures Good(w) && Reaches(START, w, 0)
    ensures Forgotten(w, DepositKey(AUCTION, FIRST)) && !ForfeitureEmitted(w.deals, DepositKey(AUCTION, FIRST))
  {
    hide Good, Leads, Reaches, WorldInv, DealsInv, BillingInv, RequestsOk, ForfeitureEmitted;
    var w0 := FirstDeal();
    NothingForfeitedYet(w0);
    var w1 := SellerCancels(w0, DEAL, 0);
    NoneForfeitedBySeller(w0.deals, w1.deals, DEAL, DepositKey(AUCTION, FIRST));
    LeadsReach(w0, w1);
    ReachesOn(START, w0, w1, 0);
    var w2 := PassOn(w1, DEAL, OtherReason(1), DEAL + 1, 0);
    LeadsReach(w1, w2);
    ReachesOn(START, w1, w2, 0);
    SecondDealPending(w2);
    w := RejectWinner(w2, DEAL + 1, DEAL + 2, 0);
    LeadsReach(w2, w);
    ReachesOn(START, w2, w, 0);
    ReachesOn(w1, w2, w, 0);
    StillNotForfeited(w1, w, DEAL);
  }

  lemma NoneForfeitedBySeller(ds: Deals, ds': Deals, d: DealId, k: DepositKey)
    requires !ForfeitureEmitted(ds, k) && ds'.outbox == ds.outbox + [DealCancelled(d, OtherReason(1))]
    ensures !ForfeitureEmitted(ds', k)
  {
  }

  lemma StillNotForfeited(w: World, w': World, d: DealId)
    requires Good(w) && Reaches(w, w', 0) && d in w.deals.deals && w.deals.deals[d].status == Cancelled
    requires !ForfeitureEmitted(w.deals, DepositKey(w.deals.deals[d].auction, w.deals.deals[d].customer))
    ensures !ForfeitureEmitted(w'.deals, DepositKey(w.deals.deals[d].auction, w.deals.deals[d].customer))
  {
    hide Good, Run, ForfeitureEmitted, WorldInv;
    GoodParts(w);
    var steps :| AnswersFrom(steps, 0) && Run(w, steps) == w';
    NeverForfeited(w, steps, d);
  }
}
