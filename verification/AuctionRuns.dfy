/** Runs of bids on one auction: what every accepted run guarantees, and what closing makes of it. */
module AuctionRuns {
  import opened Common
  import opened AuctionDomain

  // The auction after a run of accepted bids, or the error of the first one it rejects.
  function Replay(row: AuctionRow, bids: seq<Bid>): Result<AuctionRow> {
    if bids == [] then Ok(row)
    else
      var before :- Replay(row, bids[..|bids| - 1]);
      var change :- before.PlaceBid(bids[|bids| - 1]);
      Ok(change.row)
  }

  // Any sequence of attempts, the rejected ones ignored: the auction and the accepted bids.
  function Attempted(row: AuctionRow, attempts: seq<Bid>): (AuctionRow, seq<Bid>) {
    if attempts == [] then (row, [])
    else
      var (before, accepted) := Attempted(row, attempts[..|attempts| - 1]);
      var b := attempts[|attempts| - 1];
      match before.PlaceBid(b)
      case Ok(change) => (change.row, accepted + [b])
      case Err(_) => (before, accepted)
  }

  // Whatever was attempted, the auction is the replay of the accepted bids.
  lemma {:induction false} AttemptedIsReplay(row: AuctionRow, attempts: seq<Bid>)
    ensures Replay(row, Attempted(row, attempts).1) == Ok(Attempted(row, attempts).0)
    ensures forall b | b in Attempted(row, attempts).1 :: b in attempts
  {
    if attempts != [] {
      var last := |attempts| - 1;
      AttemptedIsReplay(row, attempts[..last]);
      var accepted := Attempted(row, attempts[..last]).1;
      assert (accepted + [attempts[last]])[..|accepted|] == accepted;
    }
  }

  // An auction as it is when it is published, before any bid.
  predicate JustPublished(row: AuctionRow) {
    row.state == Published && row.leader == NO_ID && row.currentPrice == row.startPrice && row.minBidStep > 0
  }

  // e is the later of the scheduled end and five minutes (300 seconds) after the latest bid.
  predicate EndsAfter(e: Time, scheduled: Time, bids: seq<Bid>) {
    && e >= scheduled && (forall b | b in bids :: e >= b.placedAt + 300)
    && (e == scheduled || exists b | b in bids :: e == b.placedAt + 300)
  }

  // A bid is in time until the scheduled end, and within five minutes of any earlier bid.
  predicate InTime(scheduled: Time, earlier: seq<Bid>, b: Bid) {
    b.placedAt <= scheduled || exists x | x in earlier :: b.placedAt <= x.placedAt + 300
  }

  // What an auction asks of its next bid after a run of accepted ones.
  predicate Acceptable(row: AuctionRow, bids: seq<Bid>, b: Bid) {
    && row.startsAt <= b.placedAt && InTime(row.endsAt, bids, b)
    && b.amount >= if bids == [] then row.startPrice else bids[|bids| - 1].amount + row.minBidStep
  }

  predicate Rising(bids: seq<Bid>, step: int) {
    forall i, j :: 0 <= i < j < |bids| ==> bids[j].amount >= bids[i].amount + step
  }

  // What a run of accepted bids makes of an auction: amounts start at the start price and rise by at least the step,
  // price and leader are those of the last bid, the end is exactly the extended one, and nothing else changes.
  predicate RunFacts(row: AuctionRow, now: AuctionRow, bids: seq<Bid>) {
    && now == row.(endsAt := now.endsAt, currentPrice := now.currentPrice, leader := now.leader)
    && Rising(bids, row.minBidStep)
    && (bids != [] ==> bids[0].amount >= row.startPrice)
    && now.currentPrice == (if bids == [] then row.startPrice else bids[|bids| - 1].amount)
    && now.leader == (if bids == [] then NO_ID else bids[|bids| - 1].bidder)
    && EndsAfter(now.endsAt, row.endsAt, bids)
    && (forall b | b in bids :: row.startsAt <= b.placedAt)
  }

  lemma EndStep(row: AuctionRow, before: AuctionRow, bids: seq<Bid>, b: Bid)
    requires EndsAfter(before.endsAt, row.endsAt, bids) && before.PlaceBid(b).Ok?
    ensures EndsAfter(before.PlaceBid(b).value.row.endsAt, row.endsAt, bids + [b])
  {
    var e, longer := before.PlaceBid(b).value.row.endsAt, bids + [b];
    assert b in longer;
    if e == before.endsAt && e != row.endsAt {
      var latest :| latest in bids && e == latest.placedAt + 300;
      assert latest in longer;
    }
  }

  lemma RunStep(row: AuctionRow, before: AuctionRow, bids: seq<Bid>, b: Bid)
    requires JustPublished(row) && RunFacts(row, before, bids) && (forall x | x in bids :: ValidBid(x)) && before.PlaceBid(b).Ok?
    ensures RunFacts(row, before.PlaceBid(b).value.row, bids + [b])
  {
    EndStep(row, before, bids, b);
    hide EndsAfter;
    if bids != [] {
      assert bids[|bids| - 1] in bids;
    }
  }

  lemma {:induction false} RunLaws(row: AuctionRow, bids: seq<Bid>)
    requires JustPublished(row) && (forall b | b in bids :: ValidBid(b)) && Replay(row, bids).Ok?
    ensures RunFacts(row, Replay(row, bids).value, bids)
  {
    if bids != [] {
      var last := |bids| - 1;
      RunLaws(row, bids[..last]);
      RunStep(row, Replay(row, bids[..last]).value, bids[..last], bids[last]);
      assert bids == bids[..last] + [bids[last]];
    }
  }

  // After a run of accepted bids the next one is accepted if and only if it is acceptable.
  lemma NextBidAcceptedIff(row: AuctionRow, bids: seq<Bid>, b: Bid)
    requires JustPublished(row) && (forall x | x in bids :: ValidBid(x)) && Replay(row, bids).Ok?
    ensures Replay(row, bids).value.PlaceBid(b).Ok? <==> Acceptable(row, bids, b)
  {
    RunLaws(row, bids);
    var now := Replay(row, bids).value;
    if bids != [] {
      assert bids[|bids| - 1] in bids;
    }
    assert InTime(row.endsAt, bids, b) <==> b.placedAt <= now.endsAt;
    hide EndsAfter, InTime;
  }

  // So a whole run is accepted if and only if each of its bids is acceptable after those before it.
  lemma {:induction false} RunAcceptedIff(row: AuctionRow, bids: seq<Bid>)
    requires JustPublished(row) && (forall b | b in bids :: ValidBid(b))
    ensures Replay(row, bids).Ok? <==> forall i | 0 <= i < |bids| :: Acceptable(row, bids[..i], bids[i])
  {
    if bids != [] {
      hide Acceptable;
      var init, last := bids[..|bids| - 1], |bids| - 1;
      RunAcceptedIff(row, init);
      assert forall i | 0 <= i < last :: init[..i] == bids[..i] && init[i] == bids[i];
      if Replay(row, init).Ok? {
        NextBidAcceptedIff(row, init, bids[last]);
      } else {
        var i :| 0 <= i < last && !Acceptable(row, init[..i], init[i]);
        assert !Acceptable(row, bids[..i], bids[i]);
      }
    }
  }

  function Reverse(bids: seq<Bid>): seq<Bid> {
    seq(|bids|, i requires 0 <= i < |bids| => bids[|bids| - 1 - i])
  }

  lemma LastBidRanksFirst(s: seq<Bid>, bids: seq<Bid>, step: int)
    requires Rising(bids, step) && step > 0 && Ranked(s, bids) && bids != []
    ensures |s| == |bids| && s[0] == bids[|bids| - 1]
  {
    SameMembers(s, bids);
    var top := bids[|bids| - 1];
    assert top in bids && s[0] in s;
    var j :| 0 <= j < |s| && s[j] == top;
    var i :| 0 <= i < |bids| && bids[i] == s[0];
    assert !Better(top, s[0]);
  }

  lemma TailBag(s: seq<Bid>, bids: seq<Bid>)
    requires multiset(s) == multiset(bids) && bids != [] && s != [] && s[0] == bids[|bids| - 1]
    ensures multiset(s[1..]) == multiset(bids[..|bids| - 1])
  {
    var tail, rest := s[1..], bids[..|bids| - 1];
    assert s == [s[0]] + tail && bids == rest + [s[0]];
    assert multiset(tail) == multiset(s) - multiset{s[0]};
    assert multiset(rest) == multiset(bids) - multiset{s[0]};
  }

  lemma TailIsRanked(s: seq<Bid>, bids: seq<Bid>)
    requires Ranked(s, bids) && bids != [] && s != [] && s[0] == bids[|bids| - 1]
    ensures Ranked(s[1..], bids[..|bids| - 1])
  {
    TailBag(s, bids);
    var tail := s[1..];
    forall i, j | 0 <= i < j < |tail|
      ensures !Better(tail[j], tail[i])
    {
      assert tail[i] == s[i + 1] && tail[j] == s[j + 1];
    }
  }

  lemma ReverseHead(bids: seq<Bid>)
    requires bids != []
    ensures Reverse(bids) == [bids[|bids| - 1]] + Reverse(bids[..|bids| - 1])
  {
  }

  lemma RankedSameLength(s: seq<Bid>, bids: seq<Bid>)
    requires Ranked(s, bids)
    ensures |s| == |bids|
  {
    SameMembers(s, bids);
  }

  lemma RisingPrefix(bids: seq<Bid>, step: int)
    requires Rising(bids, step) && bids != []
    ensures Rising(bids[..|bids| - 1], step)
  {
  }

  // Bids with rising amounts have exactly one ranking: the reverse of the order in which they were accepted.
  lemma {:induction false} RankingIsReverse(s: seq<Bid>, bids: seq<Bid>, step: int)
    requires Rising(bids, step) && step > 0 && Ranked(s, bids)
    ensures s == Reverse(bids)
  {
    RankedSameLength(s, bids);
    hide Ranked, Rising;
    if bids != [] {
      LastBidRanksFirst(s, bids, step);
      TailIsRanked(s, bids);
      var rest := bids[..|bids| - 1];
      RisingPrefix(bids, step);
      RankingIsReverse(s[1..], rest, step);
      hide Reverse;
      ReverseHead(bids);
      assert s == [s[0]] + s[1..];
    }
  }

  // The candidates of a ranking: distinct bidders, the head's first.
  lemma CandidatesLaws(ranking: seq<Bid>)
    requires ranking != [] && (forall b | b in ranking :: ValidBid(b))
    ensures var cs := Candidates(ranking);
            && cs != [] && cs[0] == ranking[0].bidder && Distinct(cs) && NO_ID !in cs
            && (forall c | c in cs :: exists b | b in ranking :: b.bidder == c)
  {
    var top := Top(ranking, MAX_CANDIDATES);
    assert ranking[0] in ranking;
    FirstCandidate(top);
    FirstAppearancesLaws(top);
    forall c | c in Candidates(ranking)
      ensures exists b | b in ranking :: b.bidder == c
    {
      var i :| 0 <= i < |top| && top[i].bidder == c;
      assert top[i] == ranking[i] && ranking[i] in ranking;
    }
  }

  // One of the last three bids, or of all if there are fewer, is c's.
  predicate AmongLastThree(bids: seq<Bid>, c: CompanyId) {
    exists i :: 0 <= i < |bids| && |bids| - 3 <= i && bids[i].bidder == c
  }

  // Where c's latest bid is.
  predicate Latest(bids: seq<Bid>, i: nat, c: CompanyId) {
    i < |bids| && bids[i].bidder == c && forall j :: i < j < |bids| ==> bids[j].bidder != c
  }

  // The winners of accepted bids are the bidders of the last three of them, each once, in the order of their latest bids.
  lemma WinnersAreLastThree(bids: seq<Bid>)
    requires forall b | b in bids :: ValidBid(b)
    ensures var winners := Candidates(Reverse(bids));
            && Distinct(winners)
            && (forall c :: c in winners <==> AmongLastThree(bids, c))
            && (forall x, y, i: nat, j: nat | 0 <= x < y < |winners| && Latest(bids, i, winners[x]) && Latest(bids, j, winners[y]) :: i > j)
  {
    var ranking, n := Reverse(bids), |bids|;
    var top := Top(ranking, MAX_CANDIDATES);
    FirstAppearancesLaws(top);
    var winners := Candidates(ranking);
    forall c
      ensures c in winners <==> AmongLastThree(bids, c)
    {
      if k :| 0 <= k < |top| && top[k].bidder == c {
        assert bids[n - 1 - k] == top[k] && bids[n - 1 - k] in bids;
      }
      if i :| 0 <= i < n && n - 3 <= i && bids[i].bidder == c {
        assert top[n - 1 - i] == bids[i] && bids[i] in bids;
      }
    }
    forall x, y, i: nat, j: nat | 0 <= x < y < |winners| && Latest(bids, i, winners[x]) && Latest(bids, j, winners[y])
      ensures i > j
    {
      LatestIsFirst(bids, i, winners[x]);
      LatestIsFirst(bids, j, winners[y]);
    }
  }

  lemma LatestIsFirst(bids: seq<Bid>, i: nat, c: CompanyId)
    requires Latest(bids, i, c) && AmongLastThree(bids, c)
    ensures FirstOf(Top(Reverse(bids), MAX_CANDIDATES), |bids| - 1 - i, c)
  {
    var top, n := Top(Reverse(bids), MAX_CANDIDATES), |bids|;
    var k :| 0 <= k < n && n - 3 <= k && bids[k].bidder == c;
    assert k <= i;
    assert forall q | 0 <= q < |top| :: top[q] == bids[n - 1 - q];
  }

  // Closing derives the winner again from the stored bids, and finds the leader and the price the auction already had.
  lemma CloseAgreesWithLeader(row: AuctionRow, bids: seq<Bid>, ranking: seq<Bid>)
    requires JustPublished(row) && (forall b | b in bids :: ValidBid(b)) && Replay(row, bids).Ok?
    requires bids != [] && Ranked(ranking, bids)
    ensures var now := Replay(row, bids).value;
            && ranking == Reverse(bids)
            && now.Close(ranking) == Ok(AuctionChange(now.(state := Won),
                 [AuctionClosed(now.id), AuctionWon(now.id, Candidates(ranking), now.currentPrice)]))
            && Candidates(ranking) != [] && Candidates(ranking)[0] == now.leader
            && Distinct(Candidates(ranking)) && NO_ID !in Candidates(ranking)
            && (forall c | c in Candidates(ranking) :: exists b | b in bids :: b.bidder == c)
            && now.currentPrice >= row.startPrice
  {
    RunLaws(row, bids);
    RankingIsReverse(ranking, bids, row.minBidStep);
    SameMembers(ranking, bids);
    HeadWins(ranking);
    CandidatesLaws(ranking);
    hide EndsAfter, Replay, Candidates, Ordered, Winner;
    assert ranking[0] == bids[|bids| - 1];
    assert bids[0].amount <= bids[|bids| - 1].amount;
  }

  // An auction that has taken bids loads back from its row as itself, exactly while its end is a set time.
  lemma ReachableRehydrates(row: AuctionRow, bids: seq<Bid>)
    requires JustPublished(row) && row.Rehydrated() == Ok(row)
    requires (forall b | b in bids :: ValidBid(b)) && Replay(row, bids).Ok?
    ensures var now := Replay(row, bids).value;
            && (now.Rehydrated() == Ok(now) <==> now.endsAt != ZERO_TIME)
            && (row.startsAt > ZERO_TIME ==> now.endsAt != ZERO_TIME)
  {
    RunLaws(row, bids);
  }
}
