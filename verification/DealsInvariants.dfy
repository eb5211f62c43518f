/** What every deals operation keeps: one live deal per auction, coupled to a selection that only moves forward. */
module DealsInvariants {
  import opened Common
  import opened DealDomain
  import opened SelectionDomain
  import opened DealsRules

  // ---------- the deals ever created for an auction, in order ----------

  function Attempts(log: seq<DealEvent>, auction: AuctionId): seq<DealId> {
    if log == [] then []
    else
      var earlier := Attempts(log[..|log| - 1], auction);
      var e := log[|log| - 1];
      if e.DealCreated? && e.auction == auction then earlier + [e.deal] else earlier
  }

  lemma {:induction false} AttemptsConcat(log: seq<DealEvent>, more: seq<DealEvent>, auction: AuctionId)
    ensures Attempts(log + more, auction) == Attempts(log, auction) + Attempts(more, auction)
  {
    if more == [] {
      assert log + more == log;
    } else {
      var last := |more| - 1;
      AttemptsConcat(log, more[..last], auction);
      assert (log + more)[..|log + more| - 1] == log + more[..last];
      assert (log + more)[|log + more| - 1] == more[last];
    }
  }

  predicate CreatesNothing(events: seq<DealEvent>) {
    forall e | e in events :: !e.DealCreated?
  }

  lemma {:induction false} NoAttempts(events: seq<DealEvent>, auction: AuctionId)
    requires forall e | e in events :: e.DealCreated? ==> e.auction != auction
    ensures Attempts(events, auction) == []
  {
    if events != [] {
      NoAttempts(events[..|events| - 1], auction);
    }
  }

  // ---------- the invariant ----------

  // How the selection's status binds the status of its current deal.
  predicate Coupled(sel: SelectionRow, row: DealRow) {
    match sel.status
    case Active =>
      row.confirmedAt.None? && row.status in {Pending, ContractPrepared, ContractSigned, Cancelled}
    case ConfirmedPendingPayment =>
      row.confirmedAt.Some? && row.status in {Confirmed, ContractPrepared, ContractSigned, PaymentRequested, Cancelled}
    case Finalized =>
      row.confirmedAt.Some? && row.status in {Paid, ShipmentRequested, Shipped, Completed, Cancelled}
    case Exhausted => row.status == Cancelled
  }

  // The contract a deal must have in each status.
  predicate ContractFits(row: DealRow) {
    match row.status
    case Pending => row.contract.NoContract?
    case Confirmed => row.contract.NoContract?
    case ContractPrepared => row.contract.Contract? && row.contract.signedAt.None?
    case Cancelled => true
    case _ => row.HasSignedContract()
  }

  // The k-th deal ever created for an auction was created for the k-th candidate at the final price.
  predicate AttemptFits(ds: Deals, sel: SelectionRow, k: nat, d: DealId)
    requires k < |sel.candidates|
  {
    && d in ds.deals
    && var row := ds.deals[d];
       && row.auction == sel.auction && row.customer == sel.candidates[k] && row.unitPrice == sel.finalPrice
       && row.supplier == sel.supplier
       && (k < sel.currentIndex ==> row.status == Cancelled)
  }

  predicate SelectionShape(sel: SelectionRow, auction: AuctionId) {
    && sel.auction == auction && auction != NO_ID
    && Distinct(sel.candidates) && NO_ID !in sel.candidates
    && 0 <= sel.currentIndex < |sel.candidates|
    && sel.finalPrice > 0 && sel.supplier != NO_ID && sel.productNamed && sel.wonAt != ZERO_TIME
    && (sel.status == Exhausted <==> sel.deal == NO_ID)
    && (sel.status == Exhausted ==> sel.currentIndex == |sel.candidates| - 1)
  }

  predicate SelectionOk(ds: Deals, auction: AuctionId)
    requires auction in ds.selections
  {
    var sel := ds.selections[auction];
    var attempts := Attempts(ds.outbox, auction);
    && SelectionShape(sel, auction)
    && |attempts| == sel.currentIndex + 1
    && (forall k | 0 <= k < |attempts| :: AttemptFits(ds, sel, k, attempts[k]))
    && (sel.status != Exhausted ==> sel.deal == attempts[sel.currentIndex])
    && Coupled(sel, ds.deals[attempts[sel.currentIndex]])
  }

  predicate DealOk(ds: Deals, d: DealId)
    requires d in ds.deals
  {
    var row := ds.deals[d];
    && d != NO_ID && row.id == d && row.kind == AuctionDeal && row.quantity == 1
    && ContractFits(row)
    && row.auction in ds.selections
    && d in Attempts(ds.outbox, row.auction)
  }

  predicate FinalizedOn(ds: Deals, d: DealId) {
    && d in ds.deals && ds.deals[d].auction in ds.selections
    && ds.selections[ds.deals[d].auction].status == Finalized
    && ds.selections[ds.deals[d].auction].deal == d
  }

  // A deal that can still, or did, lead to a finalized sale.
  predicate Live(ds: Deals, d: DealId) {
    d in ds.deals && (ds.deals[d].status != Cancelled || FinalizedOn(ds, d))
  }

  predicate DealEventOk(ds: Deals, e: DealEvent) {
    match e
    case WinnerRejected(d, a, c, _) =>
      d in ds.deals && ds.deals[d].auction == a && ds.deals[d].customer == c && !Live(ds, d)
    case DealCancelled(d, _) => d in ds.deals && ds.deals[d].status == Cancelled
    case PaymentRequestedEvent(d, a, b, s, g, _) =>
      && d in ds.deals
      && var row := ds.deals[d];
         && row.auction == a && row.customer == b && row.supplier == s && row.unitPrice == g
         && (row.status == PaymentRequested || !PrePaid(row.status))
    case WinnerSelectionFinalized(d, a, c, price, g, _) =>
      && FinalizedOn(ds, d) && ds.deals[d].auction == a && ds.deals[d].customer == c && ds.deals[d].unitPrice == g == price
    case _ => true
  }

  // What the invariant is made of.
  datatype Clause = SelectionClause | UnselectedClause | DealClause | EventClause

  ghost predicate Holds(p: Clause, ds: Deals) {
    match p
    case SelectionClause => forall a | a in ds.selections :: SelectionOk(ds, a)
    case UnselectedClause => forall a: AuctionId | a !in ds.selections :: Attempts(ds.outbox, a) == []
    case DealClause => forall d | d in ds.deals :: DealOk(ds, d)
    case EventClause => forall e | e in ds.outbox :: DealEventOk(ds, e)
  }

  ghost predicate DealsInv(ds: Deals) {
    forall p: Clause :: Holds(p, ds)
  }

  lemma DealsParts(ds: Deals)
    requires DealsInv(ds)
    ensures forall a | a in ds.selections :: SelectionOk(ds, a)
    ensures forall a: AuctionId | a !in ds.selections :: Attempts(ds.outbox, a) == []
    ensures forall d | d in ds.deals :: DealOk(ds, d)
    ensures forall e | e in ds.outbox :: DealEventOk(ds, e)
  {
    hide SelectionOk, Attempts, DealOk, DealEventOk;
    assert Holds(SelectionClause, ds) && Holds(UnselectedClause, ds) && Holds(DealClause, ds) && Holds(EventClause, ds);
  }

  lemma EmptyDealsInv()
    ensures DealsInv(NO_DEALS)
  {
  }

  // ---------- facts that, once true, stay true ----------

  function Rank(s: DealStatus): nat {
    match s
    case Pending => 0
    case Confirmed => 1
    case ContractPrepared => 2
    case ContractSigned => 3
    case PaymentRequested => 4
    case Paid => 5
    case ShipmentRequested => 6
    case Shipped => 7
    case Completed => 8
    case Cancelled => 9
  }

  // A deal keeps its parties and price, its status only moves on, and completed or cancelled is final.
  predicate DealAdvances(row: DealRow, row': DealRow) {
    && row' == row.(status := row'.status, confirmedAt := row'.confirmedAt, contract := row'.contract)
    && Rank(row.status) <= Rank(row'.status)
    && (row.status in {Completed, Cancelled} ==> row' == row)
  }

  // A selection keeps its candidates, its cursor only moves forward, a deal left behind is never selected again,
  // and finalized or exhausted is final.
  predicate SelectionAdvances(sel: SelectionRow, sel': SelectionRow) {
    && sel' == sel.(currentIndex := sel'.currentIndex, status := sel'.status, deal := sel'.deal)
    && sel.currentIndex <= sel'.currentIndex
    && (sel.status in {Finalized, Exhausted} ==> sel' == sel)
    && (sel'.currentIndex == sel.currentIndex && sel'.deal != sel.deal ==> sel'.status == Exhausted)
    && (sel'.currentIndex == sel.currentIndex && sel.status == ConfirmedPendingPayment ==> sel'.status != Active)
  }

  ghost predicate DealsAdvances(ds: Deals, ds': Deals) {
    && ds.outbox <= ds'.outbox
    && (forall d | d in ds.deals :: d in ds'.deals && DealAdvances(ds.deals[d], ds'.deals[d]))
    && (forall a | a in ds.selections :: a in ds'.selections && SelectionAdvances(ds.selections[a], ds'.selections[a]))
    && (forall d | d in ds.deals && !Live(ds, d) :: !Live(ds', d))
  }

  lemma DealsAdvancesTransitive(ds0: Deals, ds1: Deals, ds2: Deals)
    requires DealsAdvances(ds0, ds1) && DealsAdvances(ds1, ds2)
    ensures DealsAdvances(ds0, ds2)
  {
  }

  lemma DealsAdvancesReflexive(ds: Deals)
    ensures DealsAdvances(ds, ds)
  {
  }

  // ---------- consequences ----------

  // Every deal but the selected one is cancelled.
  lemma CurrentDeal(ds: Deals, d: DealId)
    requires DealsInv(ds) && d in ds.deals && ds.deals[d].status != Cancelled
    ensures ds.deals[d].auction in ds.selections
    ensures var sel := ds.selections[ds.deals[d].auction];
            && sel.status != Exhausted && sel.deal == d && 0 <= sel.currentIndex < |sel.candidates|
            && |Attempts(ds.outbox, sel.auction)| == sel.currentIndex + 1 && Attempts(ds.outbox, sel.auction)[sel.currentIndex] == d
            && ds.deals[d].customer == sel.candidates[sel.currentIndex] && Coupled(sel, ds.deals[d])
  {
    DealsParts(ds);
    assert DealOk(ds, d);
    var a := ds.deals[d].auction;
    assert SelectionOk(ds, a);
    var attempts := Attempts(ds.outbox, a);
    var k :| 0 <= k < |attempts| && attempts[k] == d;
    assert AttemptFits(ds, ds.selections[a], k, attempts[k]);
  }

  lemma OneUncancelledDealPerAuction(ds: Deals, d1: DealId, d2: DealId)
    requires DealsInv(ds) && d1 in ds.deals && d2 in ds.deals && ds.deals[d1].auction == ds.deals[d2].auction
    requires ds.deals[d1].status != Cancelled && ds.deals[d2].status != Cancelled
    ensures d1 == d2
  {
    CurrentDeal(ds, d1);
    CurrentDeal(ds, d2);
  }

  // The k-th deal ever created for an auction was created for the k-th candidate, so no more deals than candidates
  // are ever created, and no two for the same company.
  lemma FallbackFollowsRanking(ds: Deals, a: AuctionId)
    requires DealsInv(ds) && a in ds.selections
    ensures var attempts, sel := Attempts(ds.outbox, a), ds.selections[a];
            && |attempts| == sel.currentIndex + 1 <= |sel.candidates|
            && (forall k | 0 <= k < |attempts| ::
                  attempts[k] in ds.deals && ds.deals[attempts[k]].customer == sel.candidates[k]
                  && (ds.deals[attempts[k]].status != Cancelled ==> sel.deal == attempts[k]))
            && (forall d | d in ds.deals && ds.deals[d].auction == a :: d in attempts)
            && (forall i, j | 0 <= i < j < |attempts| ::
                  attempts[i] != attempts[j] && ds.deals[attempts[i]].customer != ds.deals[attempts[j]].customer)
  {
    DealsParts(ds);
    var attempts, sel := Attempts(ds.outbox, a), ds.selections[a];
    assert SelectionOk(ds, a);
    forall k | 0 <= k < |attempts|
      ensures attempts[k] in ds.deals && ds.deals[attempts[k]].customer == sel.candidates[k]
      ensures ds.deals[attempts[k]].status != Cancelled ==> sel.deal == attempts[k]
    {
      assert AttemptFits(ds, sel, k, attempts[k]);
      if ds.deals[attempts[k]].status != Cancelled {
        CurrentDeal(ds, attempts[k]);
      }
    }
    forall d | d in ds.deals && ds.deals[d].auction == a
      ensures d in attempts
    {
      assert DealOk(ds, d);
    }
  }

  // How far a deal has come says where its auction's selection stands.
  lemma DealStatusImpliesSelection(ds: Deals, d: DealId)
    requires DealsInv(ds) && d in ds.deals
    ensures var row := ds.deals[d];
            && row.auction in ds.selections
            && var sel := ds.selections[row.auction];
               && (row.status == PaymentRequested ==>
                     row.confirmedAt.Some? && row.HasSignedContract() && sel.status == ConfirmedPendingPayment && sel.deal == d)
               && (row.status in {Paid, ShipmentRequested, Shipped, Completed} ==>
                     row.confirmedAt.Some? && row.HasSignedContract() && sel.status == Finalized && sel.deal == d)
               && (sel.status == Exhausted <==> sel.deal == NO_ID)
  {
    DealsParts(ds);
    assert DealOk(ds, d);
    assert SelectionOk(ds, ds.deals[d].auction);
    if ds.deals[d].status != Cancelled {
      CurrentDeal(ds, d);
    }
  }

  // ---------- preservation ----------

  // A change of the current deal, and possibly of its selection's status, that creates no deal.
  predicate Updates(ds: Deals, ds': Deals, d: DealId, events: seq<DealEvent>) {
    && d in ds.deals && ds.deals[d].status != Cancelled && ds.deals[d].auction in ds.selections
    && d in ds'.deals && ds'.deals == ds.deals[d := ds'.deals[d]] && DealAdvances(ds.deals[d], ds'.deals[d])
    && var a := ds.deals[d].auction;
       var sel := ds.selections[a];
       && a in ds'.selections && ds'.selections == ds.selections[a := ds'.selections[a]]
       && ds'.selections[a] == sel.(status := ds'.selections[a].status) && SelectionAdvances(sel, ds'.selections[a])
       && ds'.selections[a].status != Exhausted
       && Coupled(ds'.selections[a], ds'.deals[d]) && ContractFits(ds'.deals[d])
       && ds'.outbox == ds.outbox + events && CreatesNothing(events)
  }

  lemma SameAttempts(ds: Deals, ds': Deals, events: seq<DealEvent>)
    requires ds'.outbox == ds.outbox + events && CreatesNothing(events)
    ensures forall q: AuctionId :: Attempts(ds'.outbox, q) == Attempts(ds.outbox, q)
  {
    forall q: AuctionId
      ensures Attempts(ds'.outbox, q) == Attempts(ds.outbox, q)
    {
      AttemptsConcat(ds.outbox, events, q);
      NoAttempts(events, q);
    }
  }

  lemma UpdateKeepsSelection(ds: Deals, ds': Deals, d: DealId, events: seq<DealEvent>, q: AuctionId)
    requires DealsInv(ds) && Updates(ds, ds', d, events) && q in ds'.selections
    ensures SelectionOk(ds', q)
  {
    hide Attempts, DealsInv, ContractFits, CreatesNothing;
    SelectionTrue(ds, q);
    SameAttempts(ds, ds', events);
    CurrentDeal(ds, d);
    var sel, attempts := ds.selections[q], Attempts(ds.outbox, q);
    forall k | 0 <= k < |attempts|
      ensures AttemptFits(ds', ds'.selections[q], k, attempts[k])
    {
      assert AttemptFits(ds, sel, k, attempts[k]);
    }
    assert AttemptFits(ds, sel, sel.currentIndex, attempts[sel.currentIndex]);
  }

  lemma UpdateKeepsEvent(ds: Deals, ds': Deals, d: DealId, events: seq<DealEvent>, e: DealEvent)
    requires DealsInv(ds) && Updates(ds, ds', d, events) && e in ds.outbox
    ensures DealEventOk(ds', e)
  {
    hide DealsInv, Attempts, Coupled, ContractFits, CreatesNothing;
    EventTrue(ds, e);
    if e.WinnerRejected? {
      UpdateKeepsDead(ds, ds', d, events, e.deal);
    }
    hide Live;
  }

  lemma SelectionTrue(ds: Deals, a: AuctionId)
    requires DealsInv(ds) && a in ds.selections
    ensures SelectionOk(ds, a)
  {
    DealsParts(ds);
  }

  lemma EventTrue(ds: Deals, e: DealEvent)
    requires DealsInv(ds) && e in ds.outbox
    ensures DealEventOk(ds, e)
  {
    DealsParts(ds);
  }

  lemma UpdateKeepsDeal(ds: Deals, ds': Deals, d: DealId, events: seq<DealEvent>, q: DealId)
    requires DealsInv(ds) && Updates(ds, ds', d, events) && q in ds'.deals
    ensures DealOk(ds', q)
  {
    DealsParts(ds);
    SameAttempts(ds, ds', events);
    hide Attempts, DealEventOk, SelectionOk;
    assert DealOk(ds, q);
  }

  lemma UpdateKeepsDead(ds: Deals, ds': Deals, d: DealId, events: seq<DealEvent>, q: DealId)
    requires DealsInv(ds) && Updates(ds, ds', d, events) && q in ds.deals && !Live(ds, q)
    ensures !Live(ds', q)
  {
    CurrentDeal(ds, d);
    hide Attempts, Coupled, ContractFits, CreatesNothing, DealsInv, SelectionShape;
  }

  lemma DealAdvancesReflexive(row: DealRow)
    ensures DealAdvances(row, row)
  {
  }

  lemma SelectionAdvancesReflexive(sel: SelectionRow)
    ensures SelectionAdvances(sel, sel)
  {
  }

  lemma UpdateAdvances(ds: Deals, ds': Deals, d: DealId, events: seq<DealEvent>)
    requires DealsInv(ds) && Updates(ds, ds', d, events)
    ensures DealsAdvances(ds, ds')
  {
    forall q | q in ds.deals && !Live(ds, q)
      ensures !Live(ds', q)
    {
      UpdateKeepsDead(ds, ds', d, events, q);
    }
    hide Attempts, Coupled, ContractFits, CreatesNothing, DealsInv, Live, DealAdvances, SelectionAdvances;
    forall q | q in ds.deals
      ensures q in ds'.deals && DealAdvances(ds.deals[q], ds'.deals[q])
    {
      DealAdvancesReflexive(ds.deals[q]);
    }
    forall q | q in ds.selections
      ensures q in ds'.selections && SelectionAdvances(ds.selections[q], ds'.selections[q])
    {
      SelectionAdvancesReflexive(ds.selections[q]);
    }
  }

  lemma UpdateKeeps(ds: Deals, ds': Deals, d: DealId, events: seq<DealEvent>)
    requires DealsInv(ds) && Updates(ds, ds', d, events)
    requires forall e | e in events :: DealEventOk(ds', e)
    ensures DealsInv(ds') && DealsAdvances(ds, ds')
  {
    hide Attempts, DealEventOk, SelectionOk, DealOk, DealsAdvances, Coupled, ContractFits, CreatesNothing, DealAdvances, SelectionAdvances;
    DealsParts(ds);
    SameAttempts(ds, ds', events);
    UpdateAdvances(ds, ds', d, events);
    forall q | q in ds'.selections
      ensures SelectionOk(ds', q)
    {
      UpdateKeepsSelection(ds, ds', d, events, q);
    }
    forall q | q in ds'.deals
      ensures DealOk(ds', q)
    {
      UpdateKeepsDeal(ds, ds', d, events, q);
    }
    forall e | e in ds'.outbox
      ensures DealEventOk(ds', e)
    {
      if e in ds.outbox {
        UpdateKeepsEvent(ds, ds', d, events, e);
      }
    }
  }
}
