/**
 When each trading operation is accepted, and exactly what it changes, told from the stored rows and bids alone.
 A stored auction loads while its end is a set time, which bids placed before the zero time could move it to.
 */
module TradingAnswers {
  import opened Common
  import opened AuctionDomain
  import opened AuctionRuns
  import opened TradingRules
  import opened TradingInvariants

  predicate Loads(ts: Trading, a: AuctionId) {
    a in ts.auctions && ts.auctions[a].endsAt != 0
  }

  lemma LoadsIff(ts: Trading, a: AuctionId)
    requires TradingInv(ts)
    ensures Load(ts, a).Ok? <==> Loads(ts, a)
    ensures Loads(ts, a) ==> Load(ts, a) == Ok(ts.auctions[a]) && ts.auctions[a].id == a
    ensures a !in ts.auctions ==> Load(ts, a) == Err(ErrNotFound)
    ensures a in ts.auctions && !Loads(ts, a) ==> Load(ts, a) == Err(ErrInvalidSchedule)
  {
    if a in ts.auctions {
      assert AuctionOk(ts, a);
    }
    hide TradingInv, IsReplay;
  }

  // A new auction needs its identifiers, a schedule that runs forward and a start price that is not negative; it starts
  // as a draft at that price, with a step of at least one. One that exists stays as it is.
  lemma CreateAuctionIff(ts: Trading, a: AuctionId, lot: LotId, startsAt: Time, endsAt: Time, startPrice: int, minBidStep: int)
    requires TradingInv(ts)
    ensures var r := CreateAuction(ts, a, lot, startsAt, endsAt, startPrice, minBidStep);
            if a in ts.auctions then r == if Loads(ts, a) then Ok(ts) else Err(ErrInvalidSchedule)
            else
              && (r.Ok? <==> a != NO_ID && lot != NO_ID && startsAt != 0 && endsAt != 0 && startsAt < endsAt && startPrice >= 0)
              && (r.Ok? ==>
                    var step := if minBidStep > 1 then minBidStep else 1;
                    r.value == ts.(auctions := ts.auctions[a := AuctionRow(a, lot, Draft, startsAt, endsAt, startPrice, startPrice, step, NO_ID)]))
  {
    LoadsIff(ts, a);
    hide Load, TradingInv;
  }

  // What saving one changed row with one event leaves behind.
  predicate Saves(ts: Trading, ts': Trading, a: AuctionId, row: AuctionRow, event: AuctionEvent, at: Time) {
    ts' == ts.(auctions := ts.auctions[a := row], outbox := ts.outbox + [Posted(event, at)])
  }

  lemma PostOne(e: AuctionEvent, at: Time)
    ensures Post([e], at) == [Posted(e, at)]
  {
  }

  // Exactly a draft is published.
  lemma PublishAuctionIff(ts: Trading, a: AuctionId, at: Time)
    requires TradingInv(ts)
    ensures var r := PublishAuction(ts, a, at);
            && (r.Ok? <==> Loads(ts, a) && ts.auctions[a].state == Draft)
            && (r.Ok? ==> Saves(ts, r.value, a, ts.auctions[a].(state := Published), AuctionPublished(a), at))
  {
    LoadsIff(ts, a);
    PostOne(AuctionPublished(a), at);
    hide Load, TradingInv, Post;
  }

  lemma LeaderIff(ts: Trading, a: AuctionId)
    requires TradingInv(ts) && a in ts.auctions && ts.auctions[a].state in {Draft, Published}
    ensures var row, bids := ts.auctions[a], BidsOf(ts, a);
            && (row.leader == NO_ID <==> bids == [])
            && row.currentPrice == (if bids == [] then row.startPrice else bids[|bids| - 1].amount)
            && (row.state == Draft ==> bids == [])
  {
    assert AuctionOk(ts, a);
    var row, bids := ts.auctions[a], BidsOf(ts, a);
    if row.state == Published {
      var scheduled :| row.startsAt < scheduled && Replay(Opening(row, scheduled), bids) == Ok(row.(state := Published));
      RunLaws(Opening(row, scheduled), bids);
      if bids != [] {
        assert bids[|bids| - 1] in bids;
      }
    }
  }

  predicate BidAllowed(ts: Trading, a: AuctionId, bidder: CompanyId, amount: int, placedAt: Time) {
    && Loads(ts, a) && ts.auctions[a].state == Published
    && bidder != NO_ID && amount > 0 && placedAt != 0
    && ts.auctions[a].startsAt <= placedAt <= ts.auctions[a].endsAt
    && var bids := BidsOf(ts, a);
       amount >= if bids == [] then ts.auctions[a].startPrice else bids[|bids| - 1].amount + ts.auctions[a].minBidStep
  }

  // A bid is accepted exactly on a published auction between its start and its current end, from the start price on,
  // and above the last bid by at least the step. The end is then no earlier than five minutes after the bid.
  lemma PlaceBidIff(ts: Trading, a: AuctionId, bidder: CompanyId, amount: int, placedAt: Time, at: Time)
    requires TradingInv(ts)
    ensures var r := PlaceBid(ts, a, bidder, amount, placedAt, at);
            && (r.Ok? <==> BidAllowed(ts, a, bidder, amount, placedAt))
            && (r.Ok? ==>
                  var row := ts.auctions[a];
                  var end := if row.endsAt < placedAt + 300 then placedAt + 300 else row.endsAt;
                  && r.value.bids == ts.bids[a := BidsOf(ts, a) + [Bid(bidder, amount, placedAt)]]
                  && Saves(ts, r.value.(bids := ts.bids), a, row.(currentPrice := amount, leader := bidder, endsAt := end),
                           BidPlaced(a, bidder, amount, placedAt, end), at))
  {
    LoadsIff(ts, a);
    if Loads(ts, a) && ts.auctions[a].state == Published {
      LeaderIff(ts, a);
      var row := ts.auctions[a];
      PostOne(BidPlaced(a, bidder, amount, placedAt, if row.endsAt < placedAt + 300 then placedAt + 300 else row.endsAt), at);
    }
    hide Load, TradingInv, Post;
  }

  // A published auction is closed once its end has come, at any time without bids, or by the privileged command.
  // Without bids it is cancelled; with bids its result is announced and its first three places are recorded.
  lemma CloseAuctionIff(ts: Trading, a: AuctionId, privileged: bool, now: Time, listed: seq<Bid>, ranking: seq<Bid>)
    requires TradingInv(ts) && Ranked(listed, BidsOf(ts, a)) && Ranked(ranking, BidsOf(ts, a))
    ensures var r, bids := CloseAuction(ts, a, privileged, now, listed, ranking), BidsOf(ts, a);
            && (r.Ok? <==>
                  Loads(ts, a) && ts.auctions[a].state == Published && (bids == [] || privileged || now >= ts.auctions[a].endsAt))
            && (r.Ok? && bids == [] ==>
                  && r.value.winners == ts.winners[a := []]
                  && Saves(ts, r.value.(winners := ts.winners), a, ts.auctions[a].(state := AuctionDropped), AuctionCancelled(a), now))
            && (r.Ok? && bids != [] ==> ClosedOn(ts, r.value, a, now))
  {
    LoadsIff(ts, a);
    SameMembers(listed, BidsOf(ts, a));
    SameMembers(ranking, BidsOf(ts, a));
    if Loads(ts, a) && ts.auctions[a].state == Published {
      if BidsOf(ts, a) != [] {
        CloseRow(ts, a, ranking);
        hide AuctionRow.Close;
        if CloseAuction(ts, a, privileged, now, listed, ranking).Ok? {
          CloseOnResult(ts, a, privileged, now, listed, ranking);
        }
      } else {
        PostOne(AuctionCancelled(a), now);
      }
    }
    hide Load, TradingInv, Post, Ranked, Candidates, Winner, IsReplay;
  }

  // The recorded places: the last bid first, then the ones before it, three at most.
  lemma PlacesRecorded(ts: Trading, ts': Trading, a: AuctionId, now: Time)
    requires ClosedOn(ts, ts', a, now)
    ensures var bids := BidsOf(ts, a);
            && a in ts'.winners
            && |ts'.winners[a]| == (if |bids| < 3 then |bids| else 3)
            && forall i | 0 <= i < |ts'.winners[a]| ::
                 var b := bids[|bids| - 1 - i];
                 ts'.winners[a][i] == WinnerRecord(i + 1, b.bidder, b.amount, b.placedAt)
  {
  }

  // A seller may cancel a draft, or a published auction that has taken no bids.
  lemma SellerCancelAuctionIff(ts: Trading, a: AuctionId, at: Time)
    requires TradingInv(ts)
    ensures var r := SellerCancelAuction(ts, a, at);
            && (r.Ok? <==> Loads(ts, a) && (ts.auctions[a].state == Draft || (ts.auctions[a].state == Published && BidsOf(ts, a) == [])))
            && (r.Ok? ==> Saves(ts, r.value, a, ts.auctions[a].(state := AuctionDropped), AuctionCancelled(a), at))
  {
    LoadsIff(ts, a);
    if Loads(ts, a) && ts.auctions[a].state in {Draft, Published} {
      LeaderIff(ts, a);
    }
    PostOne(AuctionCancelled(a), at);
    hide Load, TradingInv, Post;
  }

  // An administrator may cancel a draft or any published auction.
  lemma AdminCancelAuctionIff(ts: Trading, a: AuctionId, at: Time)
    requires TradingInv(ts)
    ensures var r := AdminCancelAuction(ts, a, at);
            && (r.Ok? <==> Loads(ts, a) && ts.auctions[a].state in {Draft, Published})
            && (r.Ok? ==> Saves(ts, r.value, a, ts.auctions[a].(state := AuctionDropped), AuctionCancelled(a), at))
  {
    LoadsIff(ts, a);
    PostOne(AuctionCancelled(a), at);
    hide Load, TradingInv, Post;
  }
}
