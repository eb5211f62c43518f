/** What every trading operation keeps: each auction is the replay of its stored bids, and each result follows from them. */
module TradingInvariants {
  import opened Common
  import opened AuctionDomain
  import opened AuctionRuns
  import opened TradingRules

  // The auction as it was published, with its scheduled end.
  function Opening(row: AuctionRow, scheduled: Time): AuctionRow {
    row.(state := Published, endsAt := scheduled, currentPrice := row.startPrice, leader := NO_ID)
  }

  predicate PricedAndScheduled(row: AuctionRow, a: AuctionId) {
    && row.id == a && a != NO_ID && row.lot != NO_ID && row.startPrice >= 0 && row.minBidStep > 0
    && row.startsAt != ZERO_TIME && row.startsAt < row.endsAt
  }

  // The stored row is the opening row after exactly the stored bids, whatever became of it later.
  ghost predicate IsReplay(row: AuctionRow, bids: seq<Bid>) {
    exists scheduled :: row.startsAt < scheduled && Replay(Opening(row, scheduled), bids) == Ok(row.(state := Published))
  }

  ghost predicate AuctionOk(ts: Trading, a: AuctionId)
    requires a in ts.auctions
  {
    var row, bids := ts.auctions[a], BidsOf(ts, a);
    && PricedAndScheduled(row, a)
    && (forall b | b in bids :: ValidBid(b))
    && row.state != Closed
    && (row.state == Draft ==> row.startsAt < row.endsAt && bids == [] && row.leader == NO_ID && row.currentPrice == row.startPrice)
    && (row.state in {Published, Won} ==> IsReplay(row, bids))
    && (row.state == Won ==> bids != [])
  }

  predicate ResultOk(ts: Trading, e: AuctionEvent) {
    e.AuctionWon? ==>
      && e.auction in ts.auctions && ts.auctions[e.auction].state == Won
      && e.winners == Candidates(Reverse(BidsOf(ts, e.auction))) && e.finalPrice == ts.auctions[e.auction].currentPrice
  }

  ghost predicate TradingInv(ts: Trading) {
    && (forall a | a in ts.auctions :: AuctionOk(ts, a))
    && (forall a: AuctionId | a !in ts.auctions :: BidsOf(ts, a) == [])
    && (forall p | p in ts.outbox :: ResultOk(ts, p.event))
  }

  lemma EmptyTradingInv()
    ensures TradingInv(NO_TRADING)
  {
  }

  // An auction keeps its identity and pricing; its bids only grow, and not at all once it is won.
  predicate AuctionAdvances(ts: Trading, ts': Trading, a: AuctionId)
    requires a in ts.auctions
  {
    && a in ts'.auctions
    && ts'.auctions[a].startPrice == ts.auctions[a].startPrice
    && BidsOf(ts, a) <= BidsOf(ts', a)
    && (ts.auctions[a].state == Won ==> ts'.auctions[a] == ts.auctions[a] && BidsOf(ts', a) == BidsOf(ts, a))
  }

  ghost predicate TradingAdvances(ts: Trading, ts': Trading) {
    && ts.outbox <= ts'.outbox
    && (forall a | a in ts.auctions :: AuctionAdvances(ts, ts', a))
  }

  lemma TradingAdvancesReflexive(ts: Trading)
    ensures TradingAdvances(ts, ts)
  {
  }

  lemma TradingAdvancesTransitive(ts0: Trading, ts1: Trading, ts2: Trading)
    requires TradingAdvances(ts0, ts1) && TradingAdvances(ts1, ts2)
    ensures TradingAdvances(ts0, ts2)
  {
    forall a | a in ts0.auctions
      ensures AuctionAdvances(ts0, ts2, a)
    {
      assert AuctionAdvances(ts0, ts1, a) && AuctionAdvances(ts1, ts2, a);
    }
  }

  // ---------- consequences ----------

  // What the subscriber to AuctionWon may rely on: at least one candidate, all different, each with a bid,
  // the first of them the leader, and a final price not below the start price.
  lemma WonFacts(ts: Trading, p: Posted)
    requires TradingInv(ts) && p in ts.outbox && p.event.AuctionWon?
    ensures var a := p.event.auction;
            && a != NO_ID && a in ts.auctions && ts.auctions[a].state == Won
            && p.event.winners != [] && p.event.winners[0] == ts.auctions[a].leader
            && Distinct(p.event.winners) && NO_ID !in p.event.winners
            && (forall c | c in p.event.winners :: exists b | b in BidsOf(ts, a) :: b.bidder == c)
            && p.event.finalPrice >= ts.auctions[a].startPrice
            && p.event.finalPrice > 0
  {
    var a := p.event.auction;
    assert ResultOk(ts, p.event) && AuctionOk(ts, a);
    var row, bids := ts.auctions[a], BidsOf(ts, a);
    var scheduled :| row.startsAt < scheduled && Replay(Opening(row, scheduled), bids) == Ok(row.(state := Published));
    RunLaws(Opening(row, scheduled), bids);
    ReverseIsRanked(bids, row.minBidStep);
    CloseAgreesWithLeader(Opening(row, scheduled), bids, Reverse(bids));
    assert bids[|bids| - 1] in bids;
  }

  lemma ReverseIsRanked(bids: seq<Bid>, step: int)
    requires Rising(bids, step) && step > 0
    ensures Ranked(Reverse(bids), bids)
  {
    ReverseSameBag(bids);
  }

  lemma {:induction false} ReverseSameBag(bids: seq<Bid>)
    ensures multiset(Reverse(bids)) == multiset(bids)
  {
    if bids != [] {
      var rest, last := bids[..|bids| - 1], bids[|bids| - 1];
      ReverseSameBag(rest);
      assert Reverse(bids) == [last] + Reverse(rest);
      assert bids == rest + [last];
    }
  }

  // ---------- preservation ----------

  // A change of one auction's row (and possibly bids) that closes nothing.
  ghost predicate Moves(ts: Trading, ts': Trading, a: AuctionId, events: seq<Posted>) {
    && a in ts'.auctions && ts'.auctions == ts.auctions[a := ts'.auctions[a]]
    && ts'.outbox == ts.outbox + events
    && (forall q: AuctionId | q != a :: BidsOf(ts', q) == BidsOf(ts, q))
    && AuctionOk(ts', a)
    && (a in ts.auctions ==> ts.auctions[a].state != Won && AuctionAdvances(ts, ts', a))
    && (a !in ts.auctions ==> BidsOf(ts', a) == [])
  }

  lemma MoveKeeps(ts: Trading, ts': Trading, a: AuctionId, events: seq<Posted>)
    requires TradingInv(ts) && Moves(ts, ts', a, events)
    requires forall p | p in events :: ResultOk(ts', p.event)
    ensures TradingInv(ts') && TradingAdvances(ts, ts')
  {
    hide IsReplay, PricedAndScheduled;
    forall q | q in ts'.auctions
      ensures AuctionOk(ts', q)
    {
      if q != a {
        assert AuctionOk(ts, q);
      }
    }
    forall p | p in ts'.outbox
      ensures ResultOk(ts', p.event)
    {
      if p in ts.outbox {
        assert ResultOk(ts, p.event);
      }
    }
  }

  lemma CreateAuctionKeeps(ts: Trading, a: AuctionId, lot: LotId, startsAt: Time, endsAt: Time, startPrice: int, minBidStep: int)
    requires TradingInv(ts) && CreateAuction(ts, a, lot, startsAt, endsAt, startPrice, minBidStep).Ok?
    ensures var ts' := CreateAuction(ts, a, lot, startsAt, endsAt, startPrice, minBidStep).value;
            TradingInv(ts') && TradingAdvances(ts, ts') && ts'.bids == ts.bids && ts'.outbox == ts.outbox
  {
    var ts' := CreateAuction(ts, a, lot, startsAt, endsAt, startPrice, minBidStep).value;
    if a !in ts.auctions {
      MoveKeeps(ts, ts', a, []);
    }
  }

  lemma PublishAuctionKeeps(ts: Trading, a: AuctionId, at: Time)
    requires TradingInv(ts) && PublishAuction(ts, a, at).Ok?
    ensures var ts' := PublishAuction(ts, a, at).value;
            TradingInv(ts') && TradingAdvances(ts, ts') && ts'.bids == ts.bids && NoNewWinner(ts, ts')
  {
    var row, ts' := ts.auctions[a], PublishAuction(ts, a, at).value;
    assert AuctionOk(ts, a);
    var now := ts'.auctions[a];
    assert Replay(Opening(now, now.endsAt), []) == Ok(now.(state := Published));
    MoveKeeps(ts, ts', a, Post([AuctionPublished(row.id)], at));
  }

  // The only events added say nothing about a winner.
  predicate NoNewWinner(ts: Trading, ts': Trading) {
    forall p | p in ts'.outbox && p.event.AuctionWon? :: p in ts.outbox
  }

  // One more accepted bid makes the row the replay of one more bid.
  lemma BidReplays(row: AuctionRow, bids: seq<Bid>, b: Bid)
    requires row.state == Published && IsReplay(row, bids) && row.PlaceBid(b).Ok?
    ensures IsReplay(row.PlaceBid(b).value.row, bids + [b])
  {
    var now := row.PlaceBid(b).value.row;
    var scheduled :| row.startsAt < scheduled && Replay(Opening(row, scheduled), bids) == Ok(row.(state := Published));
    assert (bids + [b])[..|bids|] == bids;
    assert Opening(now, scheduled) == Opening(row, scheduled);
    assert Replay(Opening(now, scheduled), bids + [b]) == Ok(now.(state := Published));
  }

  lemma PlaceBidMoves(ts: Trading, a: AuctionId, bidder: CompanyId, amount: int, placedAt: Time, at: Time)
    requires TradingInv(ts) && PlaceBid(ts, a, bidder, amount, placedAt, at).Ok?
    ensures a in ts.auctions && bidder != NO_ID && ts.auctions[a].state == Published
    ensures var row, b := ts.auctions[a], Bid(bidder, amount, placedAt);
            && row.PlaceBid(b).Ok?
            && PlaceBid(ts, a, bidder, amount, placedAt, at).value
               == Saved(ts.(bids := ts.bids[a := BidsOf(ts, a) + [b]]), a, row.PlaceBid(b).value, at)
            && Moves(ts, PlaceBid(ts, a, bidder, amount, placedAt, at).value, a, Post(row.PlaceBid(b).value.events, at))
  {
    var row, b := ts.auctions[a], Bid(bidder, amount, placedAt);
    assert AuctionOk(ts, a);
    BidReplays(row, BidsOf(ts, a), b);
    hide IsReplay, TradingInv;
  }

  lemma PlaceBidKeeps(ts: Trading, a: AuctionId, bidder: CompanyId, amount: int, placedAt: Time, at: Time)
    requires TradingInv(ts) && PlaceBid(ts, a, bidder, amount, placedAt, at).Ok?
    ensures var ts' := PlaceBid(ts, a, bidder, amount, placedAt, at).value;
            && TradingInv(ts') && TradingAdvances(ts, ts') && NoNewWinner(ts, ts')
            && a in ts.auctions && bidder != NO_ID && ts.auctions[a].state == Published
            && ts'.bids == ts.bids[a := BidsOf(ts, a) + [Bid(bidder, amount, placedAt)]]
  {
    var ts' := PlaceBid(ts, a, bidder, amount, placedAt, at).value;
    PlaceBidMoves(ts, a, bidder, amount, placedAt, at);
    hide PlaceBid, TradingInv, TradingAdvances, Moves;
    MoveKeeps(ts, ts', a, Post(ts.auctions[a].PlaceBid(Bid(bidder, amount, placedAt)).value.events, at));
  }

  lemma CancelMoves(ts: Trading, a: AuctionId, at: Time)
    requires TradingInv(ts) && a in ts.auctions && ts.auctions[a].state in {Draft, Published}
    ensures var change := AuctionChange(ts.auctions[a].(state := AuctionDropped), [AuctionCancelled(a)]);
            Moves(ts, Saved(ts, a, change, at), a, Post(change.events, at))
  {
    assert AuctionOk(ts, a);
    hide IsReplay, TradingInv;
  }

  lemma CancelKeeps(ts: Trading, a: AuctionId, at: Time, r: Result<Trading>)
    requires TradingInv(ts) && r in {SellerCancelAuction(ts, a, at), AdminCancelAuction(ts, a, at)} && r.Ok?
    ensures TradingInv(r.value) && TradingAdvances(ts, r.value) && r.value.bids == ts.bids && NoNewWinner(ts, r.value)
  {
    assert a in ts.auctions && AuctionOk(ts, a) && ts.auctions[a].id == a;
    CancelMoves(ts, a, at);
    hide TradingInv, TradingAdvances, Moves, AuctionOk;
    MoveKeeps(ts, r.value, a, Post([AuctionCancelled(a)], at));
  }

  // Closing a published auction of the tables, on any ranking of its stored bids.
  lemma CloseRow(ts: Trading, a: AuctionId, ranking: seq<Bid>)
    requires TradingInv(ts) && a in ts.auctions && ts.auctions[a].state == Published && BidsOf(ts, a) != []
    requires Ranked(ranking, BidsOf(ts, a))
    ensures var row, bids := ts.auctions[a], BidsOf(ts, a);
            && ranking == Reverse(bids)
            && row.Close(ranking) == Ok(AuctionChange(row.(state := Won),
                 [AuctionClosed(a), AuctionWon(a, Candidates(Reverse(bids)), row.currentPrice)]))
            && IsReplay(row.(state := Won), bids)
  {
    var row, bids := ts.auctions[a], BidsOf(ts, a);
    assert AuctionOk(ts, a);
    var scheduled :| row.startsAt < scheduled && Replay(Opening(row, scheduled), bids) == Ok(row.(state := Published));
    CloseAgreesWithLeader(Opening(row, scheduled), bids, ranking);
    assert Opening(row.(state := Won), scheduled) == Opening(row, scheduled);
    hide Candidates, Replay, Ranked, TradingInv;
  }

  // The tables after closing on a result.
  predicate ClosedOn(ts: Trading, ts': Trading, a: AuctionId, now: Time) {
    && a in ts.auctions && ts'.bids == ts.bids
    && ts'.auctions == ts.auctions[a := ts.auctions[a].(state := Won)]
    && ts'.winners == ts.winners[a := WinnerRecords(Reverse(BidsOf(ts, a)), 3)]
    && ts'.outbox == ts.outbox + [Posted(AuctionClosed(a), now),
                                  Posted(AuctionWon(a, Candidates(Reverse(BidsOf(ts, a))), ts.auctions[a].currentPrice), now)]
  }

  lemma CloseOnResult(ts: Trading, a: AuctionId, privileged: bool, now: Time, listed: seq<Bid>, ranking: seq<Bid>)
    requires TradingInv(ts) && Ranked(listed, BidsOf(ts, a)) && Ranked(ranking, BidsOf(ts, a))
    requires CloseAuction(ts, a, privileged, now, listed, ranking).Ok? && BidsOf(ts, a) != []
    ensures ClosedOn(ts, CloseAuction(ts, a, privileged, now, listed, ranking).value, a, now)
    ensures a in ts.auctions && ts.auctions[a].state == Published
  {
    SameMembers(ranking, BidsOf(ts, a));
    hide Candidates, Ranked, TradingInv, Winner, WinnerRecords, Reverse;
    CloseRow(ts, a, ranking);
    CloseRow(ts, a, listed);
    var events := ts.auctions[a].Close(ranking).value.events;
    assert Post(events, now) == [Posted(events[0], now), Posted(events[1], now)];
  }

  lemma ClosedOnKeeps(ts: Trading, ts': Trading, a: AuctionId, now: Time)
    requires TradingInv(ts) && ClosedOn(ts, ts', a, now) && ts.auctions[a].state == Published && BidsOf(ts, a) != []
    ensures TradingInv(ts') && TradingAdvances(ts, ts')
  {
    assert AuctionOk(ts, a);
    ReverseIsRankedIn(ts, a);
    CloseRow(ts, a, Reverse(BidsOf(ts, a)));
    hide Candidates, TradingInv, Reverse, IsReplay, WinnerRecords, PricedAndScheduled;
    MoveKeeps(ts, ts', a, [Posted(AuctionClosed(a), now),
                           Posted(AuctionWon(a, Candidates(Reverse(BidsOf(ts, a))), ts.auctions[a].currentPrice), now)]);
  }

  lemma ReverseIsRankedIn(ts: Trading, a: AuctionId)
    requires TradingInv(ts) && a in ts.auctions && ts.auctions[a].state == Published
    ensures Ranked(Reverse(BidsOf(ts, a)), BidsOf(ts, a))
  {
    var row, bids := ts.auctions[a], BidsOf(ts, a);
    assert AuctionOk(ts, a);
    var scheduled :| row.startsAt < scheduled && Replay(Opening(row, scheduled), bids) == Ok(row.(state := Published));
    RunLaws(Opening(row, scheduled), bids);
    ReverseIsRanked(bids, row.minBidStep);
  }

  // Closing an auction with bids announces exactly one result, read off the stored bids: the candidates are the
  // distinct bidders of the three last accepted bids, newest first, and the price is the one the auction had.
  lemma CloseWithBids(ts: Trading, a: AuctionId, privileged: bool, now: Time, listed: seq<Bid>, ranking: seq<Bid>)
    requires TradingInv(ts) && Ranked(listed, BidsOf(ts, a)) && Ranked(ranking, BidsOf(ts, a)) && BidsOf(ts, a) != []
    requires CloseAuction(ts, a, privileged, now, listed, ranking).Ok?
    ensures var ts' := CloseAuction(ts, a, privileged, now, listed, ranking).value;
            && TradingInv(ts') && TradingAdvances(ts, ts') && ts'.bids == ts.bids
            && a in ts.auctions && ts.auctions[a].state == Published && ClosedOn(ts, ts', a, now)
  {
    hide CloseAuction, TradingInv, TradingAdvances, Ranked, Candidates, Reverse, WinnerRecords;
    CloseOnResult(ts, a, privileged, now, listed, ranking);
    ClosedOnKeeps(ts, CloseAuction(ts, a, privileged, now, listed, ranking).value, a, now);
  }

  // Without bids it is dropped.
  lemma CloseWithoutBids(ts: Trading, a: AuctionId, privileged: bool, now: Time, listed: seq<Bid>, ranking: seq<Bid>)
    requires TradingInv(ts) && Ranked(listed, BidsOf(ts, a)) && Ranked(ranking, BidsOf(ts, a)) && BidsOf(ts, a) == []
    requires CloseAuction(ts, a, privileged, now, listed, ranking).Ok?
    ensures var ts' := CloseAuction(ts, a, privileged, now, listed, ranking).value;
            && TradingInv(ts') && TradingAdvances(ts, ts') && ts'.bids == ts.bids
            && a in ts.auctions && ts.auctions[a].state == Published
            && a in ts'.auctions && ts'.auctions[a].state == AuctionDropped && NoNewWinner(ts, ts')
  {
    hide IsReplay, Candidates, Winner;
    assert AuctionOk(ts, a);
    SameMembers(ranking, []);
    SameMembers(listed, []);
    MoveKeeps(ts, CloseAuction(ts, a, privileged, now, listed, ranking).value, a, Post([AuctionCancelled(a)], now));
  }

  lemma CloseAuctionOutcome(ts: Trading, a: AuctionId, privileged: bool, now: Time, listed: seq<Bid>, ranking: seq<Bid>)
    requires TradingInv(ts) && Ranked(listed, BidsOf(ts, a)) && Ranked(ranking, BidsOf(ts, a))
    requires CloseAuction(ts, a, privileged, now, listed, ranking).Ok?
    ensures var ts' := CloseAuction(ts, a, privileged, now, listed, ranking).value;
            && TradingInv(ts') && TradingAdvances(ts, ts') && ts'.bids == ts.bids
            && a in ts.auctions && ts.auctions[a].state == Published
            && (if BidsOf(ts, a) == [] then a in ts'.auctions && ts'.auctions[a].state == AuctionDropped && NoNewWinner(ts, ts')
                else ClosedOn(ts, ts', a, now))
  {
    hide CloseAuction, TradingInv, TradingAdvances, Ranked, ClosedOn, NoNewWinner;
    if BidsOf(ts, a) == [] {
      CloseWithoutBids(ts, a, privileged, now, listed, ranking);
    } else {
      CloseWithBids(ts, a, privileged, now, listed, ranking);
    }
  }
}
