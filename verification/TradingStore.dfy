/**
 The trading use cases as the program runs them. Each is proved to commit exactly the state TradingRules gives, or to
 report exactly its error; what a failed use case leaves behind is not promised, because its transaction is rolled back.
 */
module TradingStore {
  import opened Common
  import opened AuctionDomain
  import opened TradingRules
  import Billing = BillingRules
  import BillingStore

  // The error and, on success, the state are those of r.
  predicate Committed(r: Result<Trading>, err: Option<Error>, after: Trading) {
    err == r.Failure() && (err.None? ==> after == r.value)
  }

  class Store {
    var auctions: map<AuctionId, AuctionRow>
    var bids: map<AuctionId, seq<Bid>>
    var winners: map<AuctionId, seq<WinnerRecord>>
    var outbox: seq<Posted>

    constructor ()
      ensures State() == NO_TRADING
    {
      auctions, bids, winners, outbox := map[], map[], map[], [];
    }

    function State(): Trading
      reads this
    {
      Trading(auctions, bids, winners, outbox)
    }

    // Puts back the tables a transaction started from.
    method Restore(ts: Trading)
      modifies this
      ensures State() == ts
    {
      auctions, bids, winners, outbox := ts.auctions, ts.bids, ts.winners, ts.outbox;
    }

    // ---------- repositories ----------

    method LoadAuction(a: AuctionId) returns (err: Option<Error>, item: Auction?)
      ensures err == Load(State(), a).Failure()
      ensures err.None? ==> item != null && fresh(item) && item.Value() == Load(State(), a).value
    {
      if a !in auctions { return Some(ErrNotFound), null; }
      var row := auctions[a].Rehydrated();
      if row.Err? { return Some(row.error), null; }
      item := new Auction(row.value);
      return None, item;
    }

    method SaveAuction(a: AuctionId, item: Auction)
      modifies this
      ensures State() == old(State()).(auctions := old(auctions)[a := old(item.Value())])
    {
      auctions := auctions[a := item.Value()];
    }

    method AddEvents(events: seq<AuctionEvent>, at: Time)
      modifies this
      ensures State() == old(State()).(outbox := old(outbox) + Post(events, at))
    {
      outbox := outbox + Post(events, at);
    }

    // ORDER BY amount DESC, placed_at ASC: some ranking of the stored bids.
    method TopBids(a: AuctionId) returns (listed: seq<Bid>)
      ensures Ranked(listed, BidsOf(State(), a))
    {
      listed := SortForCloseRanking(BidsOf(State(), a));
    }

    // ---------- use cases ----------

    method CreateAuction(a: AuctionId, lot: LotId, startsAt: Time, endsAt: Time, startPrice: int, minBidStep: int) returns (err: Option<Error>)
      modifies this
      ensures Committed(TradingRules.CreateAuction(old(State()), a, lot, startsAt, endsAt, startPrice, minBidStep), err, State())
    {
      var step := minBidStep;
      if step <= 0 { step := 1; }
      var existing;
      err, existing := LoadAuction(a);
      if err.None? { return None; }
      if err.value != ErrNotFound { return; }
      var created := NewAuctionWithPricing(a, lot, startsAt, endsAt, startPrice, step);
      err := created.Failure();
      if err.Some? { return; }
      auctions := auctions[a := created.value];
    }

    method PublishAuction(a: AuctionId, at: Time) returns (err: Option<Error>)
      modifies this
      ensures Committed(TradingRules.PublishAuction(old(State()), a, at), err, State())
    {
      var item;
      err, item := LoadAuction(a);
      if err.Some? { return; }
      var events;
      err, events := item.Publish();
      if err.Some? { return; }
      SaveAuction(a, item);
      AddEvents(events, at);
    }

    // Accepts the bid, makes sure the bidder has an account, reserves the deposit and stores everything in one transaction.
    method PlaceBid(billing: BillingStore.Store, a: AuctionId, bidder: CompanyId, amount: int, placedAt: Time, at: Time) returns (err: Option<Error>)
      modifies this, billing
      ensures var r := TradingRules.PlaceBid(old(State()), a, bidder, amount, placedAt, at);
              var money := if a in old(auctions) then Billing.ReserveForBid(old(billing.State()), bidder, a, old(auctions)[a].startPrice)
                           else Err(ErrNotFound);
              if r.Err? then err == Some(r.error)
              else if money.Err? then err == Some(money.error)
              else err == None && State() == r.value && billing.State() == money.value
    {
      hide Billing.ReserveAuctionDeposit, AuctionRow.PlaceBid, Billing.CreateAccount;
      var item;
      err, item := LoadAuction(a);
      if err.Some? { return; }
      var bid := NewBid(bidder, amount, placedAt);
      err := bid.Failure();
      if err.Some? { return; }
      var events;
      err, events := item.PlaceBid(bid.value);
      if err.Some? { return; }
      ghost var money := billing.State();
      err := billing.CreateAccount(bidder);
      if err.Some? { return; }
      err := billing.ReserveAuctionDeposit(bidder, a, item.base.startPrice);
      if err.Some? { return; }
      bids := bids[a := BidsOf(State(), a) + [bid.value]];
      SaveAuction(a, item);
      AddEvents(events, at);
    }

    method CloseAuction(a: AuctionId, privileged: bool, now: Time) returns (err: Option<Error>, ghost listed: seq<Bid>, ghost ranking: seq<Bid>)
      modifies this
      ensures Ranked(listed, BidsOf(old(State()), a)) && Ranked(ranking, BidsOf(old(State()), a))
      ensures Committed(TradingRules.CloseAuction(old(State()), a, privileged, now, listed, ranking), err, State())
    {
      var item;
      err, item := LoadAuction(a);
      var top := TopBids(a);
      listed, ranking := top, top;
      if err.Some? { return; }
      if item.state == Published && |top| > 0 && now < item.endsAt {
        if !privileged { return Some(ErrCloseForbiddenBeforeEndWithBids), listed, ranking; }
      }
      var events;
      err, events, ranking := item.Close(top);
      if err.Some? { return; }
      var records := WinnerRecordsFromBids(top, 3);
      winners := winners[a := records];
      SaveAuction(a, item);
      AddEvents(events, now);
    }

    method SellerCancelAuction(a: AuctionId, at: Time) returns (err: Option<Error>)
      modifies this
      ensures Committed(TradingRules.SellerCancelAuction(old(State()), a, at), err, State())
    {
      var item;
      err, item := LoadAuction(a);
      if err.Some? { return; }
      var events;
      err, events := item.CancelAsSellerOrDraft();
      if err.Some? { return; }
      SaveAuction(a, item);
      AddEvents(events, at);
    }

    method AdminCancelAuction(a: AuctionId, at: Time) returns (err: Option<Error>)
      modifies this
      ensures Committed(TradingRules.AdminCancelAuction(old(State()), a, at), err, State())
    {
      var item;
      err, item := LoadAuction(a);
      if err.Some? { return; }
      var events;
      err, events := item.CancelAsAdmin();
      if err.Some? { return; }
      SaveAuction(a, item);
      AddEvents(events, at);
    }
  }
}
