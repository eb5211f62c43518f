/** The auction aggregate: bids, the anti-sniping extension, closing, and the ranking of bids it closes on. */
module AuctionDomain {
  import opened Common

  // ---------- bids ----------

  datatype Bid = Bid(bidder: CompanyId, amount: int, placedAt: Time)

  predicate ValidBid(b: Bid) {
    b.bidder != NO_ID && b.amount > 0 && b.placedAt != ZERO_TIME
  }

  function NewBid(bidder: CompanyId, amount: int, placedAt: Time): Result<Bid> {
    if bidder == NO_ID then Err(ErrBidderCompanyIDEmpty)
    else if amount <= 0 then Err(ErrBidAmountNonPositive)
    else if placedAt == ZERO_TIME then Err(ErrBidPlacedAtZero)
    else Ok(Bid(bidder, amount, placedAt))
  }

  // A higher amount is better, and of equal amounts the earlier one.
  predicate Better(a: Bid, b: Bid) {
    a.amount > b.amount || (a.amount == b.amount && a.placedAt < b.placedAt)
  }

  // ---------- the ranking ----------

  predicate Ordered(s: seq<Bid>) {
    forall i, j :: 0 <= i < j < |s| ==> !Better(s[j], s[i])
  }

  // s holds the bids in closing order; bids equal in amount and time may come in any order.
  predicate Ranked(s: seq<Bid>, bids: seq<Bid>) {
    Ordered(s) && multiset(s) == multiset(bids)
  }

  // The library sort of the program does not say how it treats equal bids; any Ranked result stands for it.
  method SortForCloseRanking(bids: seq<Bid>) returns (sorted: seq<Bid>)
    ensures Ranked(sorted, bids)
  {
    sorted := [];
    assert Ranked(sorted, bids[..0]);
    hide Ranked, Better;
    for i := 0 to |bids|
      invariant Ranked(sorted, bids[..i])
    {
      var k := |sorted|;
      while k > 0 && Better(bids[i], sorted[k - 1])
        invariant 0 <= k <= |sorted|
        invariant forall j :: k <= j < |sorted| ==> Better(bids[i], sorted[j])
      {
        k := k - 1;
      }
      InsertKeepsRanked(sorted, bids[..i], k, bids[i]);
      sorted := sorted[..k] + [bids[i]] + sorted[k..];
      assert bids[..i + 1] == bids[..i] + [bids[i]];
    }
    assert bids[..|bids|] == bids;
  }

  lemma InsertKeepsRanked(s: seq<Bid>, bids: seq<Bid>, k: nat, b: Bid)
    requires Ranked(s, bids) && k <= |s|
    requires forall j :: k <= j < |s| ==> Better(b, s[j])
    requires k > 0 ==> !Better(b, s[k - 1])
    ensures Ranked(s[..k] + [b] + s[k..], bids + [b])
  {
    InsertKeepsOrdered(s, k, b);
    InsertBag(s, k, b);
    hide Ordered;
  }

  lemma InsertBag(s: seq<Bid>, k: nat, b: Bid)
    requires k <= |s|
    ensures multiset(s[..k] + [b] + s[k..]) == multiset(s) + multiset{b}
  {
    assert s == s[..k] + s[k..];
  }

  lemma InsertKeepsOrdered(s: seq<Bid>, k: nat, b: Bid)
    requires Ordered(s) && k <= |s|
    requires forall j :: k <= j < |s| ==> Better(b, s[j])
    requires k > 0 ==> !Better(b, s[k - 1])
    ensures Ordered(s[..k] + [b] + s[k..])
  {
    var r := s[..k] + [b] + s[k..];
    forall i, j | 0 <= i < j < |r|
      ensures !Better(r[j], r[i])
    {
      if j == k && k > 0 {
        assert i == k - 1 || !Better(s[k - 1], s[i]);
      }
    }
  }

  // ---------- the winner ----------

  // The best bid, and among equals the one that comes first.
  function Winner(bids: seq<Bid>): Bid
    requires bids != []
  {
    if |bids| == 1 then bids[0]
    else
      var earlier := Winner(bids[..|bids| - 1]);
      var last := bids[|bids| - 1];
      if Better(last, earlier) then last else earlier
  }

  method DetermineWinner(bids: seq<Bid>) returns (winner: Option<Bid>)
    ensures winner == if bids == [] then None else Some(Winner(bids))
  {
    if |bids| == 0 { return None; }
    var best := bids[0];
    for i := 1 to |bids|
      invariant best == Winner(bids[..i])
    {
      assert bids[..i + 1][..i] == bids[..i];
      if bids[i].amount > best.amount {
        best := bids[i];
        continue;
      }
      if bids[i].amount == best.amount && bids[i].placedAt < best.placedAt {
        best := bids[i];
      }
    }
    assert bids[..|bids|] == bids;
    return Some(best);
  }

  // The winner is one of the bids and no bid is better.
  lemma {:induction false} WinnerIsBest(bids: seq<Bid>)
    requires bids != []
    ensures Winner(bids) in bids
    ensures forall b | b in bids :: !Better(b, Winner(bids))
  {
    if |bids| > 1 {
      var rest := bids[..|bids| - 1];
      WinnerIsBest(rest);
      forall b | b in bids
        ensures !Better(b, Winner(bids))
      {
        assert b in rest || b == bids[|bids| - 1];
      }
    }
  }

  // Sorting does not change who wins: the head of any ranking is its winner, and equals the winner of the
  // unsorted bids in amount and time.
  lemma WinnerOfRanking(s: seq<Bid>, bids: seq<Bid>)
    requires Ranked(s, bids) && bids != []
    ensures s != [] && Winner(s) == s[0]
    ensures Winner(s).amount == Winner(bids).amount && Winner(s).placedAt == Winner(bids).placedAt
  {
    SameMembers(s, bids);
    assert bids[0] in bids;
    HeadWins(s);
    WinnerIsBest(s);
    WinnerIsBest(bids);
  }

  lemma SameMembers(s: seq<Bid>, bids: seq<Bid>)
    requires multiset(s) == multiset(bids)
    ensures |s| == |bids| && forall b :: b in s <==> b in bids
  {
    assert |multiset(s)| == |multiset(bids)|;
    forall b
      ensures b in s <==> b in bids
    {
      assert b in multiset(s) <==> b in multiset(bids);
    }
  }

  lemma {:induction false} HeadWins(s: seq<Bid>)
    requires Ordered(s) && s != []
    ensures Winner(s) == s[0]
  {
    if |s| > 1 {
      HeadWins(s[..|s| - 1]);
    }
  }

  // ---------- the candidates ----------

  const MAX_CANDIDATES: nat := 3

  // The bidders in order of first appearance, blanks left out.
  function FirstAppearances(bids: seq<Bid>): seq<CompanyId> {
    if bids == [] then []
    else
      var earlier := FirstAppearances(bids[..|bids| - 1]);
      var c := bids[|bids| - 1].bidder;
      if c == NO_ID || c in earlier then earlier else earlier + [c]
  }

  function Top(bids: seq<Bid>, limit: nat): seq<Bid> {
    if |bids| <= limit then bids else bids[..limit]
  }

  function Candidates(ranking: seq<Bid>): seq<CompanyId> {
    FirstAppearances(Top(ranking, MAX_CANDIDATES))
  }

  method CollectWinnerCompanyIDs(bids: seq<Bid>) returns (out: seq<CompanyId>)
    ensures out == Candidates(bids)
  {
    if |bids| == 0 { return []; }
    var n := MAX_CANDIDATES;
    if n > |bids| { n := |bids|; }
    var seen: set<CompanyId> := {};
    out := [];
    for i := 0 to n
      invariant forall c :: c in seen <==> c in out
      invariant out == FirstAppearances(bids[..i])
    {
      assert bids[..i + 1][..i] == bids[..i];
      var id := bids[i].bidder;
      if id == NO_ID { continue; }
      if id in seen { continue; }
      seen := seen + {id};
      out := out + [id];
    }
    assert |bids| <= MAX_CANDIDATES ==> bids[..n] == bids;
  }

  // Row i is the first of its bidder.
  predicate FirstOf(bids: seq<Bid>, i: nat, c: CompanyId) {
    i < |bids| && bids[i].bidder == c && forall j :: 0 <= j < i ==> bids[j].bidder != c
  }

  // The candidates are exactly the bidders of the rows, each once, in the order of their first rows.
  lemma {:induction false} FirstAppearancesLaws(bids: seq<Bid>)
    ensures var out := FirstAppearances(bids);
            && Distinct(out) && NO_ID !in out
            && (forall c :: c in out <==> c != NO_ID && exists i :: 0 <= i < |bids| && bids[i].bidder == c)
            && (forall x, y, i: nat, j: nat | 0 <= x < y < |out| && FirstOf(bids, i, out[x]) && FirstOf(bids, j, out[y]) :: i < j)
  {
    if bids != [] {
      var last := |bids| - 1;
      var rest, c := bids[..last], bids[last].bidder;
      FirstAppearancesLaws(rest);
      var out := FirstAppearances(bids);
      forall q
        ensures q in out <==> q != NO_ID && exists i :: 0 <= i < |bids| && bids[i].bidder == q
      {
        AppearsEarlier(bids, q);
      }
      forall x, y, i: nat, j: nat | 0 <= x < y < |out| && FirstOf(bids, i, out[x]) && FirstOf(bids, j, out[y])
        ensures i < j
      {
        AppearsEarlier(bids, out[x]);
        if j < last {
          assert FirstOf(rest, j, out[y]);
        }
        if i < last {
          assert FirstOf(rest, i, out[x]);
        }
      }
    }
  }

  lemma AppearsEarlier(bids: seq<Bid>, c: CompanyId)
    requires bids != []
    ensures var rest := bids[..|bids| - 1];
            (exists i :: 0 <= i < |bids| && bids[i].bidder == c)
            <==> bids[|bids| - 1].bidder == c || (exists i :: 0 <= i < |rest| && rest[i].bidder == c)
  {
    var rest := bids[..|bids| - 1];
    if i :| 0 <= i < |bids| && bids[i].bidder == c {
      if i < |rest| {
        assert rest[i].bidder == c;
      }
    }
    if i :| 0 <= i < |rest| && rest[i].bidder == c {
      assert bids[i].bidder == c;
    }
  }

  // The first candidate is the winner.
  lemma {:induction false} FirstCandidate(bids: seq<Bid>)
    requires bids != [] && bids[0].bidder != NO_ID
    ensures FirstAppearances(bids) != [] && FirstAppearances(bids)[0] == bids[0].bidder
  {
    if |bids| > 1 {
      FirstCandidate(bids[..|bids| - 1]);
    } else {
      assert FirstAppearances(bids[..0]) == [];
    }
  }

  // ---------- winner records ----------

  datatype WinnerRecord = WinnerRecord(place: nat, company: CompanyId, amount: int, placedAt: Time)

  method WinnerRecordsFromBids(bids: seq<Bid>, limit: int) returns (out: seq<WinnerRecord>)
    ensures out == WinnerRecords(bids, limit)
  {
    if |bids| == 0 || limit <= 0 { return []; }
    var n := limit;
    if n > |bids| { n := |bids|; }
    out := [];
    for i := 0 to n
      invariant |out| == i
      invariant forall j :: 0 <= j < i ==> out[j] == WinnerRecord(j + 1, bids[j].bidder, bids[j].amount, bids[j].placedAt)
    {
      out := out + [WinnerRecord(i + 1, bids[i].bidder, bids[i].amount, bids[i].placedAt)];
    }
  }

  function WinnerRecords(bids: seq<Bid>, limit: int): seq<WinnerRecord> {
    var rows := if limit <= 0 then [] else Top(bids, limit);
    seq(|rows|, i requires 0 <= i < |rows| => WinnerRecord(i + 1, rows[i].bidder, rows[i].amount, rows[i].placedAt))
  }

  // ---------- the auction ----------

  datatype AuctionState = Draft | Published | Closed | Won | AuctionDropped

  predicate CanTransition(from: AuctionState, to: AuctionState) {
    match from
    case Draft => to in {Published, AuctionDropped}
    case Published => to in {Closed, AuctionDropped}
    case Closed => to == Won
    case _ => false
  }

  const EXTENSION_WINDOW: Time := 5 * MINUTE
  const EXTENSION_DURATION: Time := 5 * MINUTE

  datatype AuctionEvent =
    | AuctionPublished(auction: AuctionId)
    | BidPlaced(auction: AuctionId, bidder: CompanyId, amount: int, placedAt: Time, newEndAt: Time)
    | AuctionClosed(auction: AuctionId)
    | AuctionWon(auction: AuctionId, winners: seq<CompanyId>, finalPrice: int)
    | AuctionCancelled(auction: AuctionId)

  datatype AuctionChange = AuctionChange(row: AuctionRow, events: seq<AuctionEvent>)

  datatype AuctionRow = AuctionRow(
    id: AuctionId,
    lot: LotId,
    state: AuctionState,
    startsAt: Time,
    endsAt: Time,
    startPrice: int,
    currentPrice: int,
    minBidStep: int,
    leader: CompanyId
  ) {
    function TransitionTo(next: AuctionState): Result<AuctionRow> {
      if CanTransition(state, next) then Ok(this.(state := next)) else Err(ErrInvalidStateTransition)
    }

    function Publish(): Result<AuctionChange> {
      if state != Draft then Err(ErrAuctionCannotBePublished)
      else
        var row :- TransitionTo(Published);
        Ok(AuctionChange(row, [AuctionPublished(id)]))
    }

    function PlaceBid(b: Bid): Result<AuctionChange> {
      if state != Published then Err(ErrAuctionNotActive)
      else if b.placedAt < startsAt then Err(ErrAuctionNotStarted)
      else if b.placedAt > endsAt then Err(ErrAuctionAlreadyEnded)
      else if b.amount < (if leader != NO_ID then currentPrice + minBidStep else currentPrice) then Err(ErrBidStepTooSmall)
      else
        var newEndAt := if endsAt - b.placedAt <= EXTENSION_WINDOW then b.placedAt + EXTENSION_DURATION else endsAt;
        Ok(AuctionChange(this.(currentPrice := b.amount, leader := b.bidder, endsAt := newEndAt),
                         [BidPlaced(id, b.bidder, b.amount, b.placedAt, newEndAt)]))
    }

    // Closing on a ranking of the stored bids.
    function Close(ranking: seq<Bid>): Result<AuctionChange> {
      if state != Published then Err(ErrCannotCloseAuction)
      else if ranking == [] then
        var row :- TransitionTo(AuctionDropped);
        Ok(AuctionChange(row, [AuctionCancelled(id)]))
      else
        var winner := Winner(ranking);
        var closed :- TransitionTo(Closed);
        var won :- closed.(currentPrice := winner.amount, leader := winner.bidder).TransitionTo(Won);
        Ok(AuctionChange(won, [AuctionClosed(id), AuctionWon(id, Candidates(ranking), winner.amount)]))
    }

    function CancelAsSellerOrDraft(): Result<AuctionChange> {
      if state != Draft && state != Published then Err(ErrInvalidStateTransition)
      else if state == Published && leader != NO_ID then Err(ErrCannotCancelWithBids)
      else
        var row :- TransitionTo(AuctionDropped);
        Ok(AuctionChange(row, [AuctionCancelled(id)]))
    }

    function CancelAsAdmin(): Result<AuctionChange> {
      if state != Draft && state != Published then Err(ErrInvalidStateTransition)
      else
        var row :- TransitionTo(AuctionDropped);
        Ok(AuctionChange(row, [AuctionCancelled(id)]))
    }

    // What loading the row from its table demands.
    function Rehydrated(): Result<AuctionRow> {
      if id == NO_ID then Err(ErrAuctionIDEmpty)
      else if lot == NO_ID then Err(ErrLotIDEmpty)
      else if startsAt == ZERO_TIME || endsAt == ZERO_TIME || startsAt >= endsAt then Err(ErrInvalidSchedule)
      else if minBidStep <= 0 then Err(ErrInvalidMinBidStep)
      else if startPrice < 0 then Err(ErrInvalidStartPrice)
      else Ok(this)
    }
  }

  function NewAuctionWithPricing(id: AuctionId, lot: LotId, startsAt: Time, endsAt: Time, startPrice: int, minBidStep: int): Result<AuctionRow>
  {
    if id == NO_ID then Err(ErrAuctionIDEmpty)
    else if lot == NO_ID then Err(ErrLotIDEmpty)
    else if startsAt == ZERO_TIME || endsAt == ZERO_TIME || startsAt >= endsAt then Err(ErrInvalidSchedule)
    else if startPrice < 0 then Err(ErrInvalidStartPrice)
    else if minBidStep <= 0 then Err(ErrInvalidMinBidStep)
    else Ok(AuctionRow(id, lot, Draft, startsAt, endsAt, startPrice, startPrice, minBidStep, NO_ID))
  }

  // What every method promises: it does what the row function says, and an error changes nothing.
  predicate Did(r: Result<AuctionChange>, before: AuctionRow, after: AuctionRow, err: Option<Error>, events: seq<AuctionEvent>) {
    && err == r.Failure()
    && events == (if r.Ok? then r.value.events else [])
    && after == (if r.Ok? then r.value.row else before)
  }

  class Auction {
    const base: AuctionRow // identity, schedule start and pricing rules; the fields below supersede the rest
    var state: AuctionState
    var endsAt: Time
    var currentPrice: int
    var leader: CompanyId

    constructor (row: AuctionRow)
      ensures Value() == row
    {
      base, state, endsAt, currentPrice, leader := row, row.state, row.endsAt, row.currentPrice, row.leader;
    }

    function Value(): AuctionRow
      reads this
    {
      base.(state := state, endsAt := endsAt, currentPrice := currentPrice, leader := leader)
    }

    method TransitionTo(next: AuctionState) returns (err: Option<Error>)
      modifies this
      ensures err == old(Value()).TransitionTo(next).Failure()
      ensures Value() == if err.None? then old(Value()).(state := next) else old(Value())
    {
      if !CanTransition(state, next) { return Some(ErrInvalidStateTransition); }
      state := next;
      return None;
    }

    method Publish() returns (err: Option<Error>, events: seq<AuctionEvent>)
      modifies this
      ensures Did(old(Value()).Publish(), old(Value()), Value(), err, events)
    {
      if state != Draft { return Some(ErrAuctionCannotBePublished), []; }
      err := TransitionTo(Published);
      events := if err.None? then [AuctionPublished(base.id)] else [];
    }

    method PlaceBid(b: Bid) returns (err: Option<Error>, events: seq<AuctionEvent>)
      modifies this
      ensures Did(old(Value()).PlaceBid(b), old(Value()), Value(), err, events)
    {
      if state != Published { return Some(ErrAuctionNotActive), []; }
      if b.placedAt < base.startsAt { return Some(ErrAuctionNotStarted), []; }
      if b.placedAt > endsAt { return Some(ErrAuctionAlreadyEnded), []; }
      var minAllowed := currentPrice;
      if leader != NO_ID { minAllowed := currentPrice + base.minBidStep; }
      if b.amount < minAllowed { return Some(ErrBidStepTooSmall), []; }
      currentPrice := b.amount;
      leader := b.bidder;
      var newEndAt := endsAt;
      if endsAt - b.placedAt <= EXTENSION_WINDOW {
        newEndAt := b.placedAt + EXTENSION_DURATION;
        endsAt := newEndAt;
      }
      return None, [BidPlaced(base.id, b.bidder, b.amount, b.placedAt, newEndAt)];
    }

    // The bids may come in any order; closing ranks them itself.
    method Close(bids: seq<Bid>) returns (err: Option<Error>, events: seq<AuctionEvent>, ghost ranking: seq<Bid>)
      modifies this
      ensures Ranked(ranking, bids)
      ensures Did(old(Value()).Close(ranking), old(Value()), Value(), err, events)
    {
      var sortedBids := SortForCloseRanking(bids);
      ranking := sortedBids;
      SameMembers(ranking, bids);
      events := [];
      if state != Published { return Some(ErrCannotCloseAuction), [], ranking; }
      if |bids| == 0 {
        err := TransitionTo(AuctionDropped);
        events := if err.None? then [AuctionCancelled(base.id)] else [];
        return;
      }
      var winner := DetermineWinner(sortedBids);
      err := TransitionTo(Closed);
      if err.Some? { return; }
      currentPrice := winner.value.amount;
      leader := winner.value.bidder;
      err := TransitionTo(Won);
      if err.Some? { return; }
      var companies := CollectWinnerCompanyIDs(sortedBids);
      events := [AuctionClosed(base.id), AuctionWon(base.id, companies, currentPrice)];
    }

    method CancelAsSellerOrDraft() returns (err: Option<Error>, events: seq<AuctionEvent>)
      modifies this
      ensures Did(old(Value()).CancelAsSellerOrDraft(), old(Value()), Value(), err, events)
    {
      if state == Draft {
        err := TransitionTo(AuctionDropped);
        return err, if err.None? then [AuctionCancelled(base.id)] else [];
      }
      if state != Published { return Some(ErrInvalidStateTransition), []; }
      if leader != NO_ID { return Some(ErrCannotCancelWithBids), []; }
      err := TransitionTo(AuctionDropped);
      events := if err.None? then [AuctionCancelled(base.id)] else [];
    }

    method CancelAsAdmin() returns (err: Option<Error>, events: seq<AuctionEvent>)
      modifies this
      ensures Did(old(Value()).CancelAsAdmin(), old(Value()), Value(), err, events)
    {
      if state != Draft && state != Published { return Some(ErrInvalidStateTransition), []; }
      err := TransitionTo(AuctionDropped);
      events := if err.None? then [AuctionCancelled(base.id)] else [];
    }
  }
}
