/**
 The trading tables and, for every trading use case, the state its transaction commits.
 TradingStore.dfy holds the use cases themselves, written the way the program runs them and proved to agree.
 */
module TradingRules {
  import opened Common
  import opened AuctionDomain

  // An outbox row: the event and when it was written.
  datatype Posted = Posted(event: AuctionEvent, at: Time)

  // The tables of the trading schema, and the outbox rows whose source context is trading.
  datatype Trading = Trading(
    auctions: map<AuctionId, AuctionRow>,
    bids: map<AuctionId, seq<Bid>>, // in the order of insertion
    winners: map<AuctionId, seq<WinnerRecord>>,
    outbox: seq<Posted>
  )

  const NO_TRADING := Trading(map[], map[], map[], [])

  function BidsOf(ts: Trading, a: AuctionId): seq<Bid> {
    if a in ts.bids then ts.bids[a] else []
  }

  function Load(ts: Trading, a: AuctionId): Result<AuctionRow> {
    if a !in ts.auctions then Err(ErrNotFound) else ts.auctions[a].Rehydrated()
  }

  function Post(events: seq<AuctionEvent>, at: Time): seq<Posted> {
    seq(|events|, i requires 0 <= i < |events| => Posted(events[i], at))
  }

  // The auction's row and events of a change, saved.
  function Saved(ts: Trading, a: AuctionId, change: AuctionChange, at: Time): Trading {
    ts.(auctions := ts.auctions[a := change.row], outbox := ts.outbox + Post(change.events, at))
  }

  function CreateAuction(ts: Trading, a: AuctionId, lot: LotId, startsAt: Time, endsAt: Time, startPrice: int, minBidStep: int): Result<Trading>
  {
    var step := if minBidStep <= 0 then 1 else minBidStep;
    var loaded := Load(ts, a);
    if loaded.Ok? then Ok(ts)
    else if loaded.error != ErrNotFound then Err(loaded.error)
    else
      var row :- NewAuctionWithPricing(a, lot, startsAt, endsAt, startPrice, step);
      Ok(ts.(auctions := ts.auctions[a := row]))
  }

  function PublishAuction(ts: Trading, a: AuctionId, at: Time): Result<Trading> {
    var row :- Load(ts, a);
    var change :- row.Publish();
    Ok(Saved(ts, a, change, at))
  }

  // The trading half of placing a bid; the same transaction also reserves the bidder's deposit.
  function PlaceBid(ts: Trading, a: AuctionId, bidder: CompanyId, amount: int, placedAt: Time, at: Time): Result<Trading> {
    var row :- Load(ts, a);
    var bid :- NewBid(bidder, amount, placedAt);
    var change :- row.PlaceBid(bid);
    Ok(Saved(ts.(bids := ts.bids[a := BidsOf(ts, a) + [bid]]), a, change, at))
  }

  // `listed` is the order in which the table returns the bids, `ranking` the order closing gives them.
  function CloseAuction(ts: Trading, a: AuctionId, privileged: bool, now: Time, listed: seq<Bid>, ranking: seq<Bid>): Result<Trading> {
    var row :- Load(ts, a);
    if row.state == Published && listed != [] && now < row.endsAt && !privileged then Err(ErrCloseForbiddenBeforeEndWithBids)
    else
      var change :- row.Close(ranking);
      Ok(Saved(ts.(winners := ts.winners[a := WinnerRecords(listed, 3)]), a, change, now))
  }

  function SellerCancelAuction(ts: Trading, a: AuctionId, at: Time): Result<Trading> {
    var row :- Load(ts, a);
    var change :- row.CancelAsSellerOrDraft();
    Ok(Saved(ts, a, change, at))
  }

  function AdminCancelAuction(ts: Trading, a: AuctionId, at: Time): Result<Trading> {
    var row :- Load(ts, a);
    var change :- row.CancelAsAdmin();
    Ok(Saved(ts, a, change, at))
  }
}
