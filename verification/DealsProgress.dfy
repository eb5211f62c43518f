/** When a selection moves on, and what stays done once done. */
module DealsProgress {
  import opened Common
  import opened DealDomain
  import opened SelectionDomain
  import opened DealsRules
  import opened DealsInvariants
  import opened DealsOutcomes
  import DealsAnswers

  // ---------- declines ----------

  // A decline succeeds exactly when it names the current deal (or none), that deal is cancelled already,
  // and the selection is not exhausted.
  lemma DeclineSucceedsIff(ds: Deals, d: DealId, newDeal: DealId)
    requires DealsInv(ds) && d in ds.deals && newDeal != NO_ID
    ensures ds.deals[d].auction in ds.selections
    ensures var r, sel := HandleDealDeclined(ds, NO_ID, d, newDeal), ds.selections[ds.deals[d].auction];
            && (r.Ok? <==> sel.status != Exhausted && sel.deal == d && ds.deals[d].status == Cancelled)
            && (r == Err(ErrNoAvailableWinner) <==> sel.status == Exhausted)
            && (sel.status != Exhausted && sel.deal != d ==> r == Err(ErrStaleWinnerSelection))
  {
    hide DealsInv, Attempts, Fallback, DealsAnswers.NextOrNone;
    DealsAnswers.StoredDeal(ds, d);
    DealsAnswers.SelectionStored(ds, ds.deals[d].auction);
    DealsAnswers.HandleDealDeclinedIff(ds, NO_ID, d, newDeal);
  }

  // A deal that its auction's selection has left behind for good.
  predicate Passed(ds: Deals, d: DealId) {
    && d in ds.deals && ds.deals[d].auction in ds.selections
    && var sel := ds.selections[ds.deals[d].auction];
       || sel.status in {Finalized, Exhausted}
       || exists k | 0 <= k < sel.currentIndex && k < |sel.candidates| :: sel.candidates[k] == ds.deals[d].customer
  }

  lemma PassedStays(ds: Deals, ds': Deals, d: DealId)
    requires DealsAdvances(ds, ds') && Passed(ds, d)
    ensures Passed(ds', d)
  {
    assert DealAdvances(ds.deals[d], ds'.deals[d]);
    var sel, sel' := ds.selections[ds.deals[d].auction], ds'.selections[ds.deals[d].auction];
    assert SelectionAdvances(sel, sel');
    if sel.status !in {Finalized, Exhausted} {
      var k :| 0 <= k < sel.currentIndex && k < |sel.candidates| && sel.candidates[k] == ds.deals[d].customer;
      assert 0 <= k < sel'.currentIndex && sel'.candidates[k] == ds'.deals[d].customer;
    }
  }

  // The current deal of an open selection has not been left behind, so a deal left behind is never current again.
  lemma StillCurrent(ds: Deals, d: DealId)
    requires DealsInv(ds) && d in ds.deals && ds.deals[d].auction in ds.selections
    requires var sel := ds.selections[ds.deals[d].auction];
             sel.deal == d && sel.status in {Active, ConfirmedPendingPayment}
    ensures !Passed(ds, d)
  {
    DealsParts(ds);
    var a := ds.deals[d].auction;
    var sel := ds.selections[a];
    assert SelectionOk(ds, a);
    assert AttemptFits(ds, sel, sel.currentIndex, Attempts(ds.outbox, a)[sel.currentIndex]);
    forall k | 0 <= k < sel.currentIndex
      ensures sel.candidates[k] != ds.deals[d].customer
    {
    }
  }

  lemma FellBackPasses(ds: Deals, ds': Deals, a: AuctionId, newDeal: DealId, d: DealId)
    requires DealsInv(ds) && a in ds.selections && FellBack(ds, ds', a, newDeal) && newDeal !in ds.deals
    requires d in ds.deals && ds.selections[a].deal == d && ds.deals[d].auction == a
    ensures Passed(ds', d)
  {
    DealsParts(ds);
    var sel := ds.selections[a];
    assert SelectionOk(ds, a);
    assert AttemptFits(ds, sel, sel.currentIndex, Attempts(ds.outbox, a)[sel.currentIndex]);
    hide Attempts, DealsInv, Coupled;
    if sel.status != Finalized && sel.currentIndex + 1 < |sel.candidates| {
      assert ds'.selections[a].candidates[sel.currentIndex] == ds'.deals[d].customer;
    }
  }

  // ---------- the subscriber to deals.DealCancelled ----------

  function OnDealCancelled(ds: Deals, d: DealId, reason: CancelReason, newDeal: DealId): Result<Deals> {
    if reason == PaymentTimeout then Ok(ds)
    else
      var r := HandleDealDeclined(ds, NO_ID, d, newDeal);
      if r == Err(ErrNoAvailableWinner) then Ok(ds) else r
  }

  // When a deal is cancelled while its selection still has it as the current one, the subscriber moves the
  // selection on for every reason except a payment timeout: then it leaves everything as it is.
  lemma CancelledCurrentDealIsPassedIff(ds: Deals, d: DealId, reason: CancelReason, newDeal: DealId)
    requires DealsInv(ds) && d in ds.deals && ds.deals[d].status == Cancelled
    requires newDeal != NO_ID && newDeal !in ds.deals
    requires ds.deals[d].auction in ds.selections
    requires var sel := ds.selections[ds.deals[d].auction];
             sel.deal == d && sel.status in {Active, ConfirmedPendingPayment}
    ensures OnDealCancelled(ds, d, reason, newDeal).Ok?
    ensures reason != PaymentTimeout <==> Passed(OnDealCancelled(ds, d, reason, newDeal).value, d)
    ensures reason == PaymentTimeout <==> OnDealCancelled(ds, d, reason, newDeal) == Ok(ds)
  {
    DealsParts(ds);
    assert DealOk(ds, d);
    StillCurrent(ds, d);
    DeclineSucceedsIff(ds, d, newDeal);
    if reason != PaymentTimeout {
      HandleDealDeclinedOutcome(ds, NO_ID, d, newDeal);
      FellBackPasses(ds, HandleDealDeclined(ds, NO_ID, d, newDeal).value, ds.deals[d].auction, newDeal, d);
    }
  }
}
