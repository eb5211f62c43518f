/** Every deals use case keeps the deals invariant, and what the fallback and payment handlers achieve. */
module DealsOutcomes {
  import opened Common
  import opened DealDomain
  import opened SelectionDomain
  import opened DealsRules
  import opened DealsInvariants

  // ---------- opening a deal for a candidate ----------

  predicate FreshRow(row: DealRow, newDeal: DealId, sel: SelectionRow)
    requires 0 <= sel.currentIndex < |sel.candidates|
  {
    row == DealRow(newDeal, sel.candidates[sel.currentIndex], sel.supplier, sel.auction, 1, sel.finalPrice, AuctionDeal,
                   sel.productNamed, sel.wonAt, Pending, None, NoContract)
  }

  // ds' is ds with a new pending deal for the candidate under the (new or advanced) cursor of auction a.
  predicate Opens(ds: Deals, ds': Deals, a: AuctionId, newDeal: DealId, rest: seq<DealEvent>) {
    && newDeal != NO_ID && newDeal !in ds.deals
    && a in ds'.selections && ds'.selections == ds.selections[a := ds'.selections[a]]
    && newDeal in ds'.deals && ds'.deals == ds.deals[newDeal := ds'.deals[newDeal]]
    && var sel' := ds'.selections[a];
       && SelectionShape(sel', a) && sel'.status == Active && sel'.deal == newDeal
       && FreshRow(ds'.deals[newDeal], newDeal, sel')
       && ds'.outbox == ds.outbox + [DealCreated(newDeal, a, ds'.deals[newDeal].customer, ds'.deals[newDeal].unitPrice)] + rest
       && (forall e | e in rest :: e.NextWinnerSelected?)
       && (a in ds.selections ==>
             && var sel := ds.selections[a];
             && SelectionAdvances(sel, sel') && sel'.currentIndex == sel.currentIndex + 1
             && sel.status in {Active, ConfirmedPendingPayment}
             && sel.deal in ds.deals && ds.deals[sel.deal].status == Cancelled)
       && (a !in ds.selections ==> sel'.currentIndex == 0)
  }

  lemma OpenAttempts(ds: Deals, ds': Deals, a: AuctionId, newDeal: DealId, rest: seq<DealEvent>)
    requires Opens(ds, ds', a, newDeal, rest)
    ensures Attempts(ds'.outbox, a) == Attempts(ds.outbox, a) + [newDeal]
    ensures forall q: AuctionId | q != a :: Attempts(ds'.outbox, q) == Attempts(ds.outbox, q)
  {
    var row := ds'.deals[newDeal];
    var created := [DealCreated(newDeal, a, row.customer, row.unitPrice)];
    forall q: AuctionId
      ensures Attempts(ds'.outbox, q) == Attempts(ds.outbox, q) + (if q == a then [newDeal] else [])
    {
      AttemptsConcat(ds.outbox + created, rest, q);
      AttemptsConcat(ds.outbox, created, q);
      NoAttempts(rest, q);
      assert created[..0] == [];
    }
  }

  lemma OpenKeepsSelection(ds: Deals, ds': Deals, a: AuctionId, newDeal: DealId, rest: seq<DealEvent>, q: AuctionId)
    requires DealsInv(ds) && Opens(ds, ds', a, newDeal, rest) && q in ds'.selections
    ensures SelectionOk(ds', q)
  {
    hide Attempts, DealsInv, DealAdvances;
    OpenAttempts(ds, ds', a, newDeal, rest);
    if q in ds.selections {
      OpenKeepsAttempts(ds, ds', a, newDeal, rest, q);
      SelectionTrue(ds, q);
      var sel := ds.selections[q];
      assert SelectionShape(sel, q) && AttemptFits(ds, sel, sel.currentIndex, Attempts(ds.outbox, q)[sel.currentIndex]);
    } else {
      NoSelectionNoAttempts(ds, q);
    }
  }

  lemma NoSelectionNoAttempts(ds: Deals, a: AuctionId)
    requires DealsInv(ds) && a !in ds.selections
    ensures Attempts(ds.outbox, a) == []
  {
    DealsParts(ds);
  }

  lemma OpenKeepsAttempts(ds: Deals, ds': Deals, a: AuctionId, newDeal: DealId, rest: seq<DealEvent>, q: AuctionId)
    requires DealsInv(ds) && Opens(ds, ds', a, newDeal, rest) && q in ds.selections
    ensures q in ds'.selections && |Attempts(ds.outbox, q)| <= |ds'.selections[q].candidates|
    ensures forall k | 0 <= k < |Attempts(ds.outbox, q)| ::
              AttemptFits(ds', ds'.selections[q], k, Attempts(ds.outbox, q)[k])
  {
    hide Attempts, DealsInv, FreshRow, Coupled;
    DealsParts(ds);
    SelectionTrue(ds, q);
    var sel, attempts := ds.selections[q], Attempts(ds.outbox, q);
    assert AttemptFits(ds, sel, sel.currentIndex, attempts[sel.currentIndex]);
    forall k | 0 <= k < |attempts|
      ensures AttemptFits(ds', ds'.selections[q], k, attempts[k])
    {
      assert AttemptFits(ds, sel, k, attempts[k]);
    }
  }

  lemma OpenKeepsDeal(ds: Deals, ds': Deals, a: AuctionId, newDeal: DealId, rest: seq<DealEvent>, d: DealId)
    requires DealsInv(ds) && Opens(ds, ds', a, newDeal, rest) && d in ds'.deals
    ensures DealOk(ds', d)
  {
    DealsParts(ds);
    OpenAttempts(ds, ds', a, newDeal, rest);
    hide Attempts, DealEventOk, SelectionOk;
    if d in ds.deals {
      assert DealOk(ds, d);
    }
  }

  lemma OpenAdvances(ds: Deals, ds': Deals, a: AuctionId, newDeal: DealId, rest: seq<DealEvent>)
    requires Opens(ds, ds', a, newDeal, rest)
    ensures DealsAdvances(ds, ds')
  {
    hide SelectionShape, FreshRow;
  }

  lemma OpenKeepsEvents(ds: Deals, ds': Deals, a: AuctionId, newDeal: DealId, rest: seq<DealEvent>)
    requires DealsInv(ds) && Opens(ds, ds', a, newDeal, rest)
    ensures forall e | e in ds'.outbox :: DealEventOk(ds', e)
  {
    hide Attempts, SelectionOk, DealOk;
    DealsParts(ds);
    forall e | e in ds'.outbox
      ensures DealEventOk(ds', e)
    {
      if e in ds.outbox {
        assert DealEventOk(ds, e);
      }
    }
  }

  lemma OpenKeeps(ds: Deals, ds': Deals, a: AuctionId, newDeal: DealId, rest: seq<DealEvent>)
    requires DealsInv(ds) && Opens(ds, ds', a, newDeal, rest)
    ensures DealsInv(ds') && DealsAdvances(ds, ds')
  {
    DealsParts(ds);
    OpenAttempts(ds, ds', a, newDeal, rest);
    OpenAdvances(ds, ds', a, newDeal, rest);
    OpenKeepsEvents(ds, ds', a, newDeal, rest);
    hide Attempts, DealEventOk, SelectionOk, DealOk, DealsAdvances;
    forall d | d in ds'.deals
      ensures DealOk(ds', d)
    {
      OpenKeepsDeal(ds, ds', a, newDeal, rest, d);
    }
    forall q | q in ds'.selections
      ensures SelectionOk(ds', q)
    {
      OpenKeepsSelection(ds, ds', a, newDeal, rest, q);
    }
  }

  // ---------- the selection runs out of candidates, or a failure is merely announced ----------

  predicate Closes(ds: Deals, ds': Deals, a: AuctionId) {
    && a in ds.selections && a in ds'.selections && ds'.selections == ds.selections[a := ds'.selections[a]]
    && ds'.deals == ds.deals && ds'.outbox == ds.outbox + [WinnerSelectionFailed(a)]
    && var sel := ds.selections[a];
       || ds'.selections[a] == sel
       || (&& sel.status in {Active, ConfirmedPendingPayment} && sel.currentIndex == |sel.candidates| - 1
           && sel.deal in ds.deals && ds.deals[sel.deal].status == Cancelled
           && ds'.selections[a] == sel.(status := Exhausted, deal := NO_ID))
  }

  lemma CloseKeepsSelection(ds: Deals, ds': Deals, a: AuctionId, q: AuctionId)
    requires DealsInv(ds) && Closes(ds, ds', a) && q in ds'.selections
    ensures SelectionOk(ds', q)
  {
    DealsParts(ds);
    SameAttempts(ds, ds', [WinnerSelectionFailed(a)]);
    hide Attempts, DealEventOk, DealOk;
    assert SelectionOk(ds, q);
    var sel, attempts := ds.selections[q], Attempts(ds.outbox, q);
    forall k | 0 <= k < |attempts|
      ensures AttemptFits(ds', ds'.selections[q], k, attempts[k])
    {
      assert AttemptFits(ds, sel, k, attempts[k]);
    }
  }

  lemma CloseKeepsDeal(ds: Deals, ds': Deals, a: AuctionId, d: DealId)
    requires DealsInv(ds) && Closes(ds, ds', a) && d in ds'.deals
    ensures DealOk(ds', d)
  {
    DealsParts(ds);
    SameAttempts(ds, ds', [WinnerSelectionFailed(a)]);
    hide Attempts, DealEventOk, SelectionOk;
    assert DealOk(ds, d);
  }

  lemma CloseKeepsEvents(ds: Deals, ds': Deals, a: AuctionId)
    requires DealsInv(ds) && Closes(ds, ds', a)
    ensures forall e | e in ds'.outbox :: DealEventOk(ds', e)
    ensures DealsAdvances(ds, ds')
  {
    hide Attempts, SelectionOk, DealOk;
    DealsParts(ds);
    forall e | e in ds'.outbox
      ensures DealEventOk(ds', e)
    {
      if e in ds.outbox {
        assert DealEventOk(ds, e);
      }
    }
  }

  lemma CloseKeeps(ds: Deals, ds': Deals, a: AuctionId)
    requires DealsInv(ds) && Closes(ds, ds', a)
    ensures DealsInv(ds') && DealsAdvances(ds, ds')
  {
    hide Attempts, DealEventOk, SelectionOk, DealOk, DealsAdvances, SelectionShape;
    DealsParts(ds);
    SameAttempts(ds, ds', [WinnerSelectionFailed(a)]);
    CloseKeepsEvents(ds, ds', a);
    assert ds'.selections.Keys == ds.selections.Keys;
    hide Closes;
    forall q | q in ds'.selections
      ensures SelectionOk(ds', q)
    {
      CloseKeepsSelection(ds, ds', a, q);
    }
    forall d | d in ds'.deals
      ensures DealOk(ds', d)
    {
      CloseKeepsDeal(ds, ds', a, d);
    }
  }

  // ---------- fallback ----------

  predicate FinalizesNothing(ds: Deals, ds': Deals) {
    forall e | e in ds'.outbox && e.WinnerSelectionFinalized? :: e in ds.outbox
  }

  // What every use case but the start and the end of a selection does.
  ghost predicate Continues(ds: Deals, ds': Deals) {
    && DealsInv(ds') && DealsAdvances(ds, ds')
    && ds'.selections.Keys == ds.selections.Keys
    && FinalizesNothing(ds, ds')
  }

  function Reopened(sel: SelectionRow): SelectionRow {
    if sel.status == ConfirmedPendingPayment then sel.(status := Active, deal := NO_ID) else sel
  }

  // The state a fallback commits, spelled out for each of its three cases.
  lemma FallbackValue(ds: Deals, a: AuctionId, newDeal: DealId)
    requires a in ds.selections && SelectionShape(ds.selections[a], a) && ds.selections[a].status != Exhausted
    requires newDeal != NO_ID
    ensures Fallback(ds, Reopened(ds.selections[a]), a, newDeal, []).Ok?
    ensures var ds' := Fallback(ds, Reopened(ds.selections[a]), a, newDeal, []).value;
            var sel := ds.selections[a];
            && ds'.projections == ds.projections && ds'.confirmations == ds.confirmations
            && if sel.status != Finalized && sel.currentIndex + 1 < |sel.candidates| then
                 var next := sel.(currentIndex := sel.currentIndex + 1, status := Active, deal := newDeal);
                 && ds'.selections == ds.selections[a := next]
                 && newDeal in ds'.deals && ds'.deals == ds.deals[newDeal := ds'.deals[newDeal]]
                 && FreshRow(ds'.deals[newDeal], newDeal, next)
                 && ds'.outbox == ds.outbox + [DealCreated(newDeal, a, ds'.deals[newDeal].customer, ds'.deals[newDeal].unitPrice)]
                                  + [NextWinnerSelected(a, next.candidates[next.currentIndex], next.currentIndex + 1, newDeal)]
               else
                 && ds'.selections == ds.selections[a := if sel.status == Finalized then sel else sel.(status := Exhausted, deal := NO_ID)]
                 && ds'.deals == ds.deals && ds'.outbox == ds.outbox + [WinnerSelectionFailed(a)]
  {
    var sel := ds.selections[a];
    assert ds.outbox + [] == ds.outbox;
    if sel.status != Finalized && sel.currentIndex + 1 < |sel.candidates| {
      assert sel.candidates[sel.currentIndex + 1] in sel.candidates;
    }
  }

  // Falling back from a cancelled deal moves the cursor to the next candidate and opens its deal; behind the last
  // candidate the selection is exhausted; a finalized selection does not move.
  predicate FellBack(ds: Deals, ds': Deals, a: AuctionId, newDeal: DealId)
    requires a in ds.selections
  {
    && a in ds'.selections && ds'.selections == ds.selections[a := ds'.selections[a]]
    && var sel, sel' := ds.selections[a], ds'.selections[a];
       if sel.status == Finalized then sel' == sel && ds'.deals == ds.deals
       else if sel.currentIndex + 1 < |sel.candidates| then
         && sel' == sel.(currentIndex := sel.currentIndex + 1, status := Active, deal := newDeal)
         && newDeal in ds'.deals && ds'.deals == ds.deals[newDeal := ds'.deals[newDeal]]
         && 0 <= sel'.currentIndex && FreshRow(ds'.deals[newDeal], newDeal, sel')
       else sel' == sel.(status := Exhausted, deal := NO_ID) && ds'.deals == ds.deals
  }

  lemma FallbackOpens(ds: Deals, a: AuctionId, newDeal: DealId)
    requires a in ds.selections && SelectionShape(ds.selections[a], a)
    requires var sel := ds.selections[a]; sel.status in {Active, ConfirmedPendingPayment} && sel.currentIndex + 1 < |sel.candidates|
    requires ds.selections[a].deal in ds.deals && ds.deals[ds.selections[a].deal].status == Cancelled
    requires newDeal != NO_ID && newDeal !in ds.deals
    ensures Fallback(ds, Reopened(ds.selections[a]), a, newDeal, []).Ok?
    ensures var ds' := Fallback(ds, Reopened(ds.selections[a]), a, newDeal, []).value;
            var sel := ds.selections[a];
            Opens(ds, ds', a, newDeal, [NextWinnerSelected(a, sel.candidates[sel.currentIndex + 1], sel.currentIndex + 2, newDeal)])
  {
    FallbackValue(ds, a, newDeal);
    hide Attempts, Fallback;
  }

  lemma FallbackCloses(ds: Deals, a: AuctionId, newDeal: DealId)
    requires a in ds.selections && SelectionShape(ds.selections[a], a)
    requires var sel := ds.selections[a];
             sel.status == Finalized || (sel.status in {Active, ConfirmedPendingPayment} && sel.currentIndex + 1 >= |sel.candidates|)
    requires ds.selections[a].deal in ds.deals && ds.deals[ds.selections[a].deal].status == Cancelled
    requires newDeal != NO_ID
    ensures Fallback(ds, Reopened(ds.selections[a]), a, newDeal, []).Ok?
    ensures Closes(ds, Fallback(ds, Reopened(ds.selections[a]), a, newDeal, []).value, a)
  {
    FallbackValue(ds, a, newDeal);
    hide Attempts, Fallback;
  }

  lemma FallbackFellBack(ds: Deals, a: AuctionId, newDeal: DealId)
    requires a in ds.selections && SelectionShape(ds.selections[a], a) && ds.selections[a].status != Exhausted
    requires newDeal != NO_ID
    ensures Fallback(ds, Reopened(ds.selections[a]), a, newDeal, []).Ok?
    ensures FellBack(ds, Fallback(ds, Reopened(ds.selections[a]), a, newDeal, []).value, a, newDeal)
    ensures Fallback(ds, Reopened(ds.selections[a]), a, newDeal, []).value.selections.Keys == ds.selections.Keys
  {
    FallbackValue(ds, a, newDeal);
    hide Fallback;
  }

  lemma FallbackOutcome(ds: Deals, a: AuctionId, newDeal: DealId)
    requires DealsInv(ds) && a in ds.selections && ds.selections[a].status != Exhausted
    requires ds.selections[a].deal in ds.deals && ds.deals[ds.selections[a].deal].status == Cancelled
    requires newDeal != NO_ID && newDeal !in ds.deals
    ensures Fallback(ds, Reopened(ds.selections[a]), a, newDeal, []).Ok?
    ensures var ds' := Fallback(ds, Reopened(ds.selections[a]), a, newDeal, []).value;
            && Continues(ds, ds') && FellBack(ds, ds', a, newDeal)
            && ds'.projections == ds.projections && ds'.confirmations == ds.confirmations
  {
    DealsParts(ds);
    var sel := ds.selections[a];
    var ds' := Fallback(ds, Reopened(sel), a, newDeal, []).value;
    assert SelectionOk(ds, a);
    FallbackFellBack(ds, a, newDeal);
    FallbackSteps(ds, a, newDeal);
    FallbackFinalizesNothing(ds, a, newDeal);
    FallbackValue(ds, a, newDeal);
    hide Attempts, DealsAdvances, DealsInv, Fallback, SelectionShape, FellBack, FinalizesNothing;
  }

  lemma FallbackSucceeds(ds: Deals, a: AuctionId, newDeal: DealId)
    requires a in ds.selections && SelectionShape(ds.selections[a], a) && ds.selections[a].status != Exhausted && newDeal != NO_ID
    ensures Fallback(ds, Reopened(ds.selections[a]), a, newDeal, []).Ok?
  {
    FallbackValue(ds, a, newDeal);
  }

  lemma FallbackSteps(ds: Deals, a: AuctionId, newDeal: DealId)
    requires DealsInv(ds) && a in ds.selections && SelectionShape(ds.selections[a], a) && ds.selections[a].status != Exhausted
    requires ds.selections[a].deal in ds.deals && ds.deals[ds.selections[a].deal].status == Cancelled
    requires newDeal != NO_ID && newDeal !in ds.deals
    ensures Fallback(ds, Reopened(ds.selections[a]), a, newDeal, []).Ok?
    ensures var ds' := Fallback(ds, Reopened(ds.selections[a]), a, newDeal, []).value;
            DealsInv(ds') && DealsAdvances(ds, ds')
  {
    hide Attempts, DealsAdvances, SelectionOk, DealsInv, Fallback, Opens, Closes;
    var sel := ds.selections[a];
    FallbackSucceeds(ds, a, newDeal);
    var ds' := Fallback(ds, Reopened(sel), a, newDeal, []).value;
    assert 0 <= sel.currentIndex < |sel.candidates|;
    hide SelectionShape;
    if sel.status != Finalized && sel.currentIndex + 1 < |sel.candidates| {
      FallbackOpens(ds, a, newDeal);
      OpenKeeps(ds, ds', a, newDeal, [NextWinnerSelected(a, sel.candidates[sel.currentIndex + 1], sel.currentIndex + 2, newDeal)]);
    } else {
      FallbackCloses(ds, a, newDeal);
      CloseKeeps(ds, ds', a);
    }
  }

  lemma AppendFinalizesNothing(ds: Deals, ds': Deals, events: seq<DealEvent>)
    requires ds'.outbox == ds.outbox + events && forall e | e in events :: !e.WinnerSelectionFinalized?
    ensures FinalizesNothing(ds, ds')
  {
  }

  lemma FallbackFinalizesNothing(ds: Deals, a: AuctionId, newDeal: DealId)
    requires a in ds.selections && SelectionShape(ds.selections[a], a) && ds.selections[a].status != Exhausted
    requires newDeal != NO_ID
    ensures Fallback(ds, Reopened(ds.selections[a]), a, newDeal, []).Ok?
    ensures FinalizesNothing(ds, Fallback(ds, Reopened(ds.selections[a]), a, newDeal, []).value)
  {
    FallbackValue(ds, a, newDeal);
    hide Fallback, SelectionShape;
  }

  // ---------- the use cases ----------

  // The state that answers trading.AuctionWon for the first time.
  predicate Started(ds: Deals, ds': Deals, a: AuctionId, winners: seq<CompanyId>, finalPrice: int, newDeal: DealId) {
    && a !in ds.selections && a in ds'.selections && ds'.selections == ds.selections[a := ds'.selections[a]]
    && ds'.selections[a].candidates == winners && ds'.selections[a].finalPrice == finalPrice
    && ds'.selections[a].currentIndex == 0 && ds'.selections[a].deal == newDeal && ds'.selections[a].status == Active
    && newDeal in ds'.deals && ds'.deals == ds.deals[newDeal := ds'.deals[newDeal]]
    && winners != [] && ds'.deals[newDeal].customer == winners[0] && ds'.deals[newDeal].auction == a
    && ds'.deals[newDeal].status == Pending
  }

  lemma CreateDealSelectionStarts(ds: Deals, a: AuctionId, winners: seq<CompanyId>, finalPrice: int, wonAt: Time, newDeal: DealId)
    requires Distinct(winners) && NO_ID !in winners
    requires newDeal != NO_ID && newDeal !in ds.deals && a !in ds.selections
    requires CreateDealSelection(ds, a, winners, finalPrice, wonAt, newDeal).Ok?
    ensures var ds' := CreateDealSelection(ds, a, winners, finalPrice, wonAt, newDeal).value;
            Opens(ds, ds', a, newDeal, []) && Started(ds, ds', a, winners, finalPrice, newDeal) && FinalizesNothing(ds, ds')
  {
    assert winners[0] in winners;
    var ds' := CreateDealSelection(ds, a, winners, finalPrice, wonAt, newDeal).value;
    var events := [DealCreated(newDeal, a, winners[0], finalPrice)];
    assert ds'.outbox == ds.outbox + events + [];
    AppendFinalizesNothing(ds, ds', events);
  }

  lemma CreateDealSelectionOutcome(ds: Deals, a: AuctionId, winners: seq<CompanyId>, finalPrice: int, wonAt: Time, newDeal: DealId)
    requires DealsInv(ds) && Distinct(winners) && NO_ID !in winners
    requires newDeal != NO_ID && newDeal !in ds.deals
    requires CreateDealSelection(ds, a, winners, finalPrice, wonAt, newDeal).Ok?
    ensures var ds' := CreateDealSelection(ds, a, winners, finalPrice, wonAt, newDeal).value;
            && DealsInv(ds') && DealsAdvances(ds, ds') && FinalizesNothing(ds, ds')
            && (if a in ds.selections then ds' == ds && ds.selections[a].status != Exhausted
                else Started(ds, ds', a, winners, finalPrice, newDeal))
  {
    DealsParts(ds);
    if a in ds.selections {
      assert SelectionOk(ds, a);
      DealsAdvancesReflexive(ds);
      hide DealsAdvances, DealsInv, SelectionOk;
    } else {
      CreateDealSelectionStarts(ds, a, winners, finalPrice, wonAt, newDeal);
      var ds' := CreateDealSelection(ds, a, winners, finalPrice, wonAt, newDeal).value;
      hide Opens, Started, FinalizesNothing, DealsAdvances, CreateDealSelection, DealsInv;
      OpenKeeps(ds, ds', a, newDeal, []);
    }
  }

  // A decline succeeds only for the current deal, which must be cancelled already.
  lemma HandleDealDeclinedFallsBack(ds: Deals, auction: AuctionId, d: DealId, newDeal: DealId)
    requires DealsInv(ds) && HandleDealDeclined(ds, auction, d, newDeal).Ok?
    ensures var a := if auction == NO_ID && d in ds.deals then ds.deals[d].auction else auction;
            && a in ds.selections && ds.selections[a].status != Exhausted
            && ds.selections[a].deal in ds.deals && ds.deals[ds.selections[a].deal].status == Cancelled
            && ds.deals[ds.selections[a].deal].auction == a
            && (d != NO_ID ==> ds.selections[a].deal == d)
            && HandleDealDeclined(ds, auction, d, newDeal) == Fallback(ds, Reopened(ds.selections[a]), a, newDeal, [])
  {
    hide Attempts, DealsInv, Fallback, Coupled;
    var a := if auction == NO_ID && d in ds.deals then ds.deals[d].auction else auction;
    SelectionTrue(ds, a);
    var sel := ds.selections[a];
    assert AttemptFits(ds, sel, sel.currentIndex, Attempts(ds.outbox, a)[sel.currentIndex]);
  }

  // It then falls back to the next candidate.
  lemma HandleDealDeclinedOutcome(ds: Deals, auction: AuctionId, d: DealId, newDeal: DealId)
    requires DealsInv(ds) && newDeal != NO_ID && newDeal !in ds.deals
    requires HandleDealDeclined(ds, auction, d, newDeal).Ok?
    ensures var ds' := HandleDealDeclined(ds, auction, d, newDeal).value;
            var a := if auction == NO_ID && d in ds.deals then ds.deals[d].auction else auction;
            && Continues(ds, ds')
            && a in ds.selections && ds.selections[a].status != Exhausted
            && ds.selections[a].deal in ds.deals && ds.deals[ds.selections[a].deal].status == Cancelled
            && (d != NO_ID ==> ds.selections[a].deal == d)
            && FellBack(ds, ds', a, newDeal)
            && ds'.projections == ds.projections && ds'.confirmations == ds.confirmations
  {
    var a := if auction == NO_ID && d in ds.deals then ds.deals[d].auction else auction;
    HandleDealDeclinedFallsBack(ds, auction, d, newDeal);
    FallbackOutcome(ds, a, newDeal);
    hide HandleDealDeclined, DealsInv, Continues, Fallback, FellBack;
  }

  predicate OnlyPaperwork(events: seq<DealEvent>) {
    forall e | e in events :: e.ConfirmationRequested? || e.ConfirmationApproved? || e.ConfirmationRejected?
  }

  // The state after a cancellation of deal d whose events follow `earlier` ones.
  predicate CancelledBy(ds: Deals, ds': Deals, d: DealId, reason: CancelReason, actor: Actor, earlier: seq<DealEvent>) {
    && d in ds.deals && ds.deals[d].Cancel(reason, actor).Ok?
    && ds'.deals == ds.deals[d := ds.deals[d].(status := Cancelled)] && ds'.selections == ds.selections
    && OnlyPaperwork(earlier) && ds'.outbox == ds.outbox + (earlier + ds.deals[d].Cancel(reason, actor).value.events)
  }

  lemma CancelEvents(row: DealRow, reason: CancelReason, actor: Actor)
    requires row.Cancel(reason, actor).Ok?
    ensures forall e | e in row.Cancel(reason, actor).value.events ::
              || e == DealCancelled(row.id, reason)
              || (e.WinnerRejected? && e.deal == row.id && e.auction == row.auction && e.company == row.customer && PrePaid(row.status))
  {
  }

  // Every event of a cancellation is true of the state it leaves behind.
  lemma CancelTellsTruth(ds: Deals, ds': Deals, d: DealId, reason: CancelReason, actor: Actor, earlier: seq<DealEvent>, e: DealEvent)
    requires DealsInv(ds) && CancelledBy(ds, ds', d, reason, actor, earlier)
    requires e in earlier + ds.deals[d].Cancel(reason, actor).value.events
    ensures DealEventOk(ds', e) && !e.WinnerSelectionFinalized? && !e.DealCreated?
  {
    hide DealsInv, DealRow.Cancel;
    var row := ds.deals[d];
    DealKeyed(ds, d);
    CancelEvents(row, reason, actor);
    if PrePaid(row.status) {
      NotFinalizedBeforePayment(ds, d);
    }
  }

  lemma DealKeyed(ds: Deals, d: DealId)
    requires DealsInv(ds) && d in ds.deals
    ensures ds.deals[d].id == d && ds.deals[d].kind == AuctionDeal && ds.deals[d].auction in ds.selections
    ensures ds.selections[ds.deals[d].auction].auction == ds.deals[d].auction
  {
    DealsParts(ds);
    assert DealOk(ds, d) && SelectionOk(ds, ds.deals[d].auction);
  }

  lemma NotFinalizedBeforePayment(ds: Deals, d: DealId)
    requires DealsInv(ds) && d in ds.deals && PrePaid(ds.deals[d].status)
    ensures !FinalizedOn(ds, d)
  {
    CurrentDeal(ds, d);
    hide DealsInv;
  }

  lemma CancelIsAllowed(row: DealRow, reason: CancelReason, actor: Actor)
    requires row.Cancel(reason, actor).Ok?
    ensures row.status != Cancelled && row.status != Completed
  {
  }

  lemma CancelCreatesNothing(row: DealRow, reason: CancelReason, actor: Actor, earlier: seq<DealEvent>)
    requires row.Cancel(reason, actor).Ok? && OnlyPaperwork(earlier)
    ensures CreatesNothing(earlier + row.Cancel(reason, actor).value.events)
  {
    CancelEvents(row, reason, actor);
    hide DealRow.Cancel;
  }

  lemma CancelUpdates(ds: Deals, ds': Deals, d: DealId, reason: CancelReason, actor: Actor, earlier: seq<DealEvent>)
    requires DealsInv(ds) && CancelledBy(ds, ds', d, reason, actor, earlier)
    ensures Updates(ds, ds', d, earlier + ds.deals[d].Cancel(reason, actor).value.events)
  {
    hide DealsInv, CreatesNothing, DealRow.Cancel, OnlyPaperwork, Attempts;
    CancelIsAllowed(ds.deals[d], reason, actor);
    CurrentDeal(ds, d);
    CancelCreatesNothing(ds.deals[d], reason, actor, earlier);
  }

  lemma CancelKeeps(ds: Deals, ds': Deals, d: DealId, reason: CancelReason, actor: Actor, earlier: seq<DealEvent>)
    requires DealsInv(ds) && CancelledBy(ds, ds', d, reason, actor, earlier)
    ensures Continues(ds, ds')
  {
    var events := earlier + ds.deals[d].Cancel(reason, actor).value.events;
    CancelUpdates(ds, ds', d, reason, actor, earlier);
    forall e | e in events
      ensures DealEventOk(ds', e) && !e.WinnerSelectionFinalized?
    {
      CancelTellsTruth(ds, ds', d, reason, actor, earlier, e);
    }
    AppendFinalizesNothing(ds, ds', events);
    hide DealsInv, DealEventOk, DealsAdvances, FinalizesNothing;
    UpdateKeeps(ds, ds', d, events);
  }

  // ---------- an expired invoice ----------

  lemma FallbackEarlier(ds: Deals, sel: SelectionRow, a: AuctionId, newDeal: DealId, earlier: seq<DealEvent>)
    ensures Fallback(ds, sel, a, newDeal, earlier) == Fallback(ds.(outbox := ds.outbox + earlier), sel, a, newDeal, [])
  {
    assert ds.outbox + earlier + [] == ds.outbox + earlier;
  }

  // The cancellation half of an expired invoice, as if it were committed on its own.
  function TimedOut(ds: Deals, d: DealId): Deals
    requires d in ds.deals
  {
    var row := ds.deals[d];
    ds.(deals := ds.deals[d := row.(status := Cancelled)],
        outbox := ds.outbox + [DealCancelled(row.id, PaymentTimeout), WinnerRejected(row.id, row.auction, row.customer, PaymentTimeout)])
  }

  // An expired invoice either leaves everything as it is, or cancels its deal and falls back in one step.
  lemma HandleDealInvoiceExpiredCases(ds: Deals, d: DealId, a: AuctionId, buyer: CompanyId, newDeal: DealId)
    requires DealsInv(ds) && HandleDealInvoiceExpired(ds, d, a, buyer, newDeal).Ok?
    ensures d in ds.deals
    ensures var row := ds.deals[d];
            || (row.status != PaymentRequested && HandleDealInvoiceExpired(ds, d, a, buyer, newDeal) == Ok(ds))
            || (&& PostConfirmPrePaid(row.status) && row.auction == a && row.customer == buyer
                && a in ds.selections && ds.selections[a].deal == d && ds.selections[a].status == ConfirmedPendingPayment
                && CancelledBy(ds, TimedOut(ds, d), d, PaymentTimeout, System, [])
                && HandleDealInvoiceExpired(ds, d, a, buyer, newDeal)
                   == Fallback(TimedOut(ds, d), Reopened(ds.selections[a]), a, newDeal, []))
  {
    hide Attempts, DealsInv, Fallback;
    var row := ds.deals[d];
    DealKeyed(ds, d);
    if row.status != Cancelled {
      CurrentDeal(ds, d);
    }
    if row.status != Paid && row.status != Cancelled && a in ds.selections {
      var sel := ds.selections[a];
      var events := [DealCancelled(d, PaymentTimeout), WinnerRejected(d, a, buyer, PaymentTimeout)];
      FallbackEarlier(ds.(deals := ds.deals[d := row.(status := Cancelled)]), Reopened(sel), a, newDeal, events);
      assert [] + events == events;
    }
  }

  lemma HandleDealInvoiceExpiredOutcome(ds: Deals, d: DealId, a: AuctionId, buyer: CompanyId, newDeal: DealId)
    requires DealsInv(ds) && newDeal != NO_ID && newDeal !in ds.deals
    requires HandleDealInvoiceExpired(ds, d, a, buyer, newDeal).Ok?
    ensures var ds' := HandleDealInvoiceExpired(ds, d, a, buyer, newDeal).value;
            && Continues(ds, ds')
            && d in ds.deals && d in ds'.deals
            && (|| (ds' == ds && ds.deals[d].status != PaymentRequested)
                || (&& a in ds.selections && ds.selections[a].deal == d && ds.deals[d].auction == a
                    && PostConfirmPrePaid(ds.deals[d].status) && ds'.deals[d].status == Cancelled
                    && FellBack(TimedOut(ds, d), ds', a, newDeal)))
  {
    HandleDealInvoiceExpiredCases(ds, d, a, buyer, newDeal);
    var r := HandleDealInvoiceExpired(ds, d, a, buyer, newDeal);
    if r == Ok(ds) && ds.deals[d].status != PaymentRequested {
      DealsAdvancesReflexive(ds);
      hide HandleDealInvoiceExpired, DealsInv, DealsAdvances;
    } else {
      TimeOutAndFallBack(ds, d, a, newDeal);
    }
  }

  lemma TimeOutAndFallBack(ds: Deals, d: DealId, a: AuctionId, newDeal: DealId)
    requires DealsInv(ds) && newDeal != NO_ID && newDeal !in ds.deals
    requires d in ds.deals && a in ds.selections && ds.selections[a].deal == d && ds.selections[a].status == ConfirmedPendingPayment
    requires CancelledBy(ds, TimedOut(ds, d), d, PaymentTimeout, System, [])
    ensures Fallback(TimedOut(ds, d), Reopened(ds.selections[a]), a, newDeal, []).Ok?
    ensures var ds' := Fallback(TimedOut(ds, d), Reopened(ds.selections[a]), a, newDeal, []).value;
            Continues(ds, ds') && FellBack(TimedOut(ds, d), ds', a, newDeal) && d in ds'.deals && ds'.deals[d].status == Cancelled
  {
    DealsParts(ds);
    var ds1 := TimedOut(ds, d);
    var ds' := Fallback(ds1, Reopened(ds.selections[a]), a, newDeal, []).value;
    hide DealsInv, Continues, Fallback, FellBack, CancelledBy, DealsAdvances;
    CancelKeeps(ds, ds1, d, PaymentTimeout, System, []);
    ContinuesKeepsInv(ds, ds1);
    FallbackOutcome(ds1, a, newDeal);
    ContinuesTransitive(ds, ds1, ds');
    ContinuesKeepsInv(ds1, ds');
    CancelledStays(ds1, ds', d);
  }

  lemma CancelledStays(ds: Deals, ds': Deals, d: DealId)
    requires DealsAdvances(ds, ds') && d in ds.deals && ds.deals[d].status == Cancelled
    ensures d in ds'.deals && ds'.deals[d] == ds.deals[d]
  {
  }

  lemma ContinuesKeepsInv(ds: Deals, ds': Deals)
    requires Continues(ds, ds')
    ensures DealsInv(ds') && DealsAdvances(ds, ds')
  {
  }

  lemma ContinuesTransitive(ds0: Deals, ds1: Deals, ds2: Deals)
    requires Continues(ds0, ds1) && Continues(ds1, ds2)
    ensures Continues(ds0, ds2)
  {
    DealsAdvancesTransitive(ds0, ds1, ds2);
    hide DealsInv, DealsAdvances;
  }

  // ---------- a paid invoice ----------

  // The state a paid invoice leads to.
  predicate PaidFor(ds: Deals, ds': Deals, d: DealId, goods: int, feeDue: int) {
    && d in ds.deals && ds.deals[d].auction in ds.selections
    && var row := ds.deals[d];
       var a := row.auction;
       && ds'.deals == ds.deals[d := row.(status := Paid)]
       && ds'.selections == ds.selections[a := ds.selections[a].(status := Finalized)]
       && ds'.outbox == ds.outbox + [DealPaid(d), WinnerSelectionFinalized(d, a, row.customer, row.unitPrice, goods, feeDue)]
  }

  // Paying for a deal whose invoice matches succeeds exactly while payment is requested (or again once it is paid),
  // and finalizes the selection on it; no other branch of the code is ever taken.
  lemma HandleDealInvoicePaidCases(ds: Deals, d: DealId, a: AuctionId, buyer: CompanyId, goods: int, feeDue: int, amount: int)
    requires DealsInv(ds) && d in ds.deals && goods > 0
    requires ds.deals[d].auction == a && ds.deals[d].customer == buyer && ds.deals[d].unitPrice == goods && amount == goods + feeDue
    ensures var r := HandleDealInvoicePaid(ds, d, a, buyer, goods, feeDue, amount);
            && (r.Ok? <==> ds.deals[d].status in {PaymentRequested, Paid})
            && (ds.deals[d].status == Paid ==> r == Ok(ds))
            && (ds.deals[d].status == PaymentRequested ==> PaidFor(ds, r.value, d, goods, feeDue))
  {
    DealsParts(ds);
    var row := ds.deals[d];
    assert DealOk(ds, d) && row.id == d && row.kind == AuctionDeal && row.quantity == 1;
    assert SelectionOk(ds, a);
    var sel := ds.selections[a];
    assert AttemptFits(ds, sel, sel.currentIndex, Attempts(ds.outbox, a)[sel.currentIndex]);
    assert sel.candidates[sel.currentIndex] in sel.candidates;
    if row.status != Cancelled {
      CurrentDeal(ds, d);
      assert ds.outbox + [DealPaid(d)] + [WinnerSelectionFinalized(d, a, row.customer, row.unitPrice, goods, feeDue)]
          == ds.outbox + [DealPaid(d), WinnerSelectionFinalized(d, a, row.customer, row.unitPrice, goods, feeDue)];
    }
    assert row.Total() == row.unitPrice;
    assert a != NO_ID && buyer != NO_ID by {
      BuyerNamed(ds, d);
    }
    hide Attempts, SelectionOk, DealsInv, DealOk;
  }

  lemma BuyerNamed(ds: Deals, d: DealId)
    requires DealsInv(ds) && d in ds.deals
    ensures ds.deals[d].customer != NO_ID && ds.deals[d].auction != NO_ID
  {
    DealsParts(ds);
    FallbackFollowsRanking(ds, ds.deals[d].auction);
    assert DealOk(ds, d) && SelectionOk(ds, ds.deals[d].auction);
    hide Attempts, DealsInv;
    var sel, attempts := ds.selections[ds.deals[d].auction], Attempts(ds.outbox, ds.deals[d].auction);
    var k :| 0 <= k < |attempts| && attempts[k] == d;
    assert sel.candidates[k] in sel.candidates;
  }

  lemma PaidForUpdates(ds: Deals, ds': Deals, d: DealId, goods: int, feeDue: int)
    requires DealsInv(ds) && PaidFor(ds, ds', d, goods, feeDue) && ds.deals[d].status == PaymentRequested
    ensures var row := ds.deals[d];
            Updates(ds, ds', d, [DealPaid(d), WinnerSelectionFinalized(d, row.auction, row.customer, row.unitPrice, goods, feeDue)])
  {
    DealStatusImpliesSelection(ds, d);
    hide DealsInv, FinalizedOn;
  }

  lemma PaidForFinalizes(ds: Deals, ds': Deals, d: DealId, goods: int, feeDue: int)
    requires DealsInv(ds) && PaidFor(ds, ds', d, goods, feeDue) && ds.deals[d].status == PaymentRequested
    ensures FinalizedOn(ds', d)
  {
    DealStatusImpliesSelection(ds, d);
    hide DealsInv;
  }

  lemma PaidForKeeps(ds: Deals, ds': Deals, d: DealId, goods: int, feeDue: int)
    requires DealsInv(ds) && PaidFor(ds, ds', d, goods, feeDue) && ds.deals[d].status == PaymentRequested && goods == ds.deals[d].unitPrice
    ensures DealsInv(ds') && DealsAdvances(ds, ds') && ds'.selections.Keys == ds.selections.Keys
  {
    var row := ds.deals[d];
    PaidForUpdates(ds, ds', d, goods, feeDue);
    PaidForFinalizes(ds, ds', d, goods, feeDue);
    hide Updates, DealsInv, FinalizedOn, DealsAdvances;
    var events := [DealPaid(d), WinnerSelectionFinalized(d, row.auction, row.customer, row.unitPrice, goods, feeDue)];
    forall e | e in events
      ensures DealEventOk(ds', e)
    {
    }
    UpdateKeeps(ds, ds', d, events);
  }

  // ---------- commands on one deal ----------

  // A change of one deal alone.
  predicate Turns(ds: Deals, ds': Deals, d: DealId, row: DealRow, events: seq<DealEvent>) {
    && d in ds.deals && ds.deals[d].status != Cancelled
    && ds'.deals == ds.deals[d := row] && ds'.selections == ds.selections && ds'.outbox == ds.outbox + events
    && row == ds.deals[d].(status := row.status, contract := row.contract)
    && (forall e | e in events :: !e.DealCreated? && !e.WinnerSelectionFinalized?)
  }

  lemma TurnKeeps(ds: Deals, ds': Deals, d: DealId, row: DealRow, events: seq<DealEvent>)
    requires DealsInv(ds) && Turns(ds, ds', d, row, events) && DealAdvances(ds.deals[d], row) && ContractFits(row)
    requires ds.deals[d].auction in ds.selections && Coupled(ds.selections[ds.deals[d].auction], row)
    requires forall e | e in events :: DealEventOk(ds', e)
    ensures Continues(ds, ds')
  {
    CurrentDeal(ds, d);
    AppendFinalizesNothing(ds, ds', events);
    hide Attempts, SelectionOk, DealsInv, DealOk, DealEventOk, DealsAdvances, Coupled, ContractFits, FinalizesNothing, DealAdvances;
    SelectionAdvancesReflexive(ds.selections[ds.deals[d].auction]);
    UpdateKeeps(ds, ds', d, events);
  }

  lemma DealFits(ds: Deals, d: DealId)
    requires DealsInv(ds) && d in ds.deals
    ensures ContractFits(ds.deals[d]) && ds.deals[d].id == d
  {
    DealsParts(ds);
    assert DealOk(ds, d);
  }

  lemma PrepareContractKeeps(ds: Deals, d: DealId, number: nat, now: Time)
    requires DealsInv(ds) && PrepareContract(ds, d, number, now).Ok?
    ensures Continues(ds, PrepareContract(ds, d, number, now).value)
  {
    hide DealsInv, Attempts, Continues;
    var row := ds.deals[d];
    DealFits(ds, d);
    CurrentDeal(ds, d);
    var ds' := PrepareContract(ds, d, number, now).value;
    TurnKeeps(ds, ds', d, ds'.deals[d], [ContractPreparedEvent(row.id)]);
  }

  lemma SignContractKeeps(ds: Deals, d: DealId, signedBy: UserId, signatureRef: nat, now: Time)
    requires DealsInv(ds) && SignContract(ds, d, signedBy, signatureRef, now).Ok?
    ensures Continues(ds, SignContract(ds, d, signedBy, signatureRef, now).value)
  {
    hide DealsInv, Attempts, Continues;
    var row := ds.deals[d];
    DealFits(ds, d);
    CurrentDeal(ds, d);
    TurnKeeps(ds, SignContract(ds, d, signedBy, signatureRef, now).value, d, row.SignContract(now).value.row, [ContractSignedEvent(row.id)]);
  }

  lemma RequestPaymentTurns(ds: Deals, d: DealId, dueAt: Time)
    requires DealsInv(ds) && RequestPayment(ds, d, dueAt).Ok?
    ensures d in ds.deals
    ensures var row, ds' := ds.deals[d], RequestPayment(ds, d, dueAt).value;
            var e := PaymentRequestedEvent(d, row.auction, row.customer, row.supplier, row.unitPrice, dueAt);
            && Turns(ds, ds', d, row.(status := PaymentRequested), [e]) && DealEventOk(ds', e)
            && row.status == ContractSigned && row.HasSignedContract()
            && row.auction in ds.selections && ds.selections[row.auction].status == ConfirmedPendingPayment
  {
    DealsParts(ds);
    var row := ds.deals[d];
    assert DealOk(ds, d) && row.id == d && row.kind == AuctionDeal && row.quantity == 1;
    BuyerNamed(ds, d);
    assert row.Total() == row.unitPrice;
    hide DealsInv, DealOk;
  }

  lemma RequestPaymentKeeps(ds: Deals, d: DealId, dueAt: Time)
    requires DealsInv(ds) && RequestPayment(ds, d, dueAt).Ok?
    ensures Continues(ds, RequestPayment(ds, d, dueAt).value)
  {
    var row := ds.deals[d];
    var ds' := RequestPayment(ds, d, dueAt).value;
    RequestPaymentTurns(ds, d, dueAt);
    CurrentDeal(ds, d);
    assert Coupled(ds.selections[row.auction], row.(status := PaymentRequested));
    hide RequestPayment, DealsInv, Continues, Turns, DealEventOk;
    var e := PaymentRequestedEvent(d, row.auction, row.customer, row.supplier, row.unitPrice, dueAt);
    TurnKeeps(ds, ds', d, row.(status := PaymentRequested), [e]);
  }

  lemma RequestShipmentKeeps(ds: Deals, d: DealId)
    requires DealsInv(ds) && RequestShipment(ds, d).Ok?
    ensures Continues(ds, RequestShipment(ds, d).value)
  {
    hide DealsInv, Attempts, Continues;
    var row := ds.deals[d];
    DealFits(ds, d);
    CurrentDeal(ds, d);
    TurnKeeps(ds, RequestShipment(ds, d).value, d, row.RequestShipment().value.row, [ShipmentRequestedEvent(row.id)]);
  }

  lemma CancelDealKeeps(ds: Deals, d: DealId, reason: CancelReason, actor: Option<Actor>)
    requires DealsInv(ds) && CancelDeal(ds, d, reason, actor).Ok?
    ensures Continues(ds, CancelDeal(ds, d, reason, actor).value)
  {
    var ds' := CancelDeal(ds, d, reason, actor).value;
    CancelForfeits(ds.deals[d], reason, actor.value);
    assert [] + ds.deals[d].Cancel(reason, actor.value).value.events == ds.deals[d].Cancel(reason, actor.value).value.events;
    hide DealsInv, Continues, DealRow.Cancel;
    CancelKeeps(ds, ds', d, reason, actor.value, []);
  }

  // ---------- confirmation requests ----------

  // A change of projections, confirmations and the outbox that tells nothing about deals.
  predicate Files(ds: Deals, ds': Deals, events: seq<DealEvent>) {
    ds'.deals == ds.deals && ds'.selections == ds.selections && ds'.outbox == ds.outbox + events && OnlyPaperwork(events)
  }

  lemma PaperworkKeepsSelection(ds: Deals, ds': Deals, events: seq<DealEvent>, a: AuctionId)
    requires DealsInv(ds) && Files(ds, ds', events) && a in ds.selections
    ensures SelectionOk(ds', a)
  {
    DealsParts(ds);
    SameAttempts(ds, ds', events);
    assert SelectionOk(ds, a);
    var sel, attempts := ds.selections[a], Attempts(ds.outbox, a);
    hide Attempts, DealsInv, SelectionShape, Coupled;
    assert forall k | 0 <= k < |attempts| :: AttemptFits(ds, sel, k, attempts[k]) && AttemptFits(ds', sel, k, attempts[k]);
  }

  lemma PaperworkKeepsEvents(ds: Deals, ds': Deals, events: seq<DealEvent>)
    requires DealsInv(ds) && Files(ds, ds', events)
    ensures forall e | e in ds'.outbox :: DealEventOk(ds', e)
  {
    hide Attempts, SelectionOk, DealOk;
    DealsParts(ds);
    forall e | e in ds'.outbox
      ensures DealEventOk(ds', e)
    {
      if e in ds.outbox {
        assert DealEventOk(ds, e);
      }
    }
  }

  lemma PaperworkKeeps(ds: Deals, ds': Deals, events: seq<DealEvent>)
    requires DealsInv(ds) && Files(ds, ds', events)
    ensures Continues(ds, ds')
  {
    hide Attempts, FinalizesNothing, SelectionOk, DealOk, DealEventOk;
    DealsParts(ds);
    SameAttempts(ds, ds', events);
    AppendFinalizesNothing(ds, ds', events);
    PaperworkKeepsEvents(ds, ds', events);
    forall a | a in ds'.selections
      ensures SelectionOk(ds', a)
    {
      PaperworkKeepsSelection(ds, ds', events, a);
    }
    forall d | d in ds'.deals
      ensures DealOk(ds', d)
    {
      PaperworkKeepsDeal(ds, ds', events, d);
    }
  }

  lemma PaperworkKeepsDeal(ds: Deals, ds': Deals, events: seq<DealEvent>, d: DealId)
    requires DealsInv(ds) && Files(ds, ds', events) && d in ds.deals
    ensures DealOk(ds', d)
  {
    DealsParts(ds);
    SameAttempts(ds, ds', events);
    assert DealOk(ds, d);
    hide Attempts, DealsInv, ContractFits;
  }

  // A confirmation of the deal that has just been approved moves its selection on to waiting for payment.
  predicate ConfirmedBy(ds: Deals, ds': Deals, d: DealId, now: Time, earlier: seq<DealEvent>) {
    && d in ds.deals && ds.deals[d].status == Pending && ds.deals[d].auction in ds.selections
    && var row := ds.deals[d];
       var a := row.auction;
       && ds.selections[a].status == Active && ds.selections[a].deal == d
       && ds'.deals == ds.deals[d := row.(status := Confirmed, confirmedAt := Some(now))]
       && ds'.selections == ds.selections[a := ds.selections[a].(status := ConfirmedPendingPayment)]
       && OnlyPaperwork(earlier)
       && ds'.outbox == ds.outbox + (earlier + [DealConfirmed(d), WinnerConfirmed(d, a, row.customer, row.unitPrice)])
  }

  lemma ConfirmUpdates(ds: Deals, ds': Deals, d: DealId, now: Time, earlier: seq<DealEvent>)
    requires DealsInv(ds) && ConfirmedBy(ds, ds', d, now, earlier)
    ensures var row := ds.deals[d];
            Updates(ds, ds', d, earlier + [DealConfirmed(d), WinnerConfirmed(d, row.auction, row.customer, row.unitPrice)])
  {
    hide DealsInv;
    PendingHasNoContract(ds, d);
  }

  lemma PendingHasNoContract(ds: Deals, d: DealId)
    requires DealsInv(ds) && d in ds.deals && ds.deals[d].status == Pending
    ensures ds.deals[d].contract.NoContract?
  {
    DealsParts(ds);
    assert DealOk(ds, d) && ContractFits(ds.deals[d]);
  }

  lemma ConfirmKeeps(ds: Deals, ds': Deals, d: DealId, now: Time, earlier: seq<DealEvent>)
    requires DealsInv(ds) && ConfirmedBy(ds, ds', d, now, earlier)
    ensures Continues(ds, ds')
  {
    hide DealsInv, DealsAdvances, FinalizesNothing, Updates;
    var row := ds.deals[d];
    ConfirmUpdates(ds, ds', d, now, earlier);
    var events := earlier + [DealConfirmed(d), WinnerConfirmed(d, row.auction, row.customer, row.unitPrice)];
    assert ds'.outbox == ds.outbox + events && ds'.selections.Keys == ds.selections.Keys;
    forall e | e in events
      ensures DealEventOk(ds', e) && !e.DealCreated? && !e.WinnerSelectionFinalized?
    {
    }
    AppendFinalizesNothing(ds, ds', events);
    hide DealEventOk, ConfirmedBy;
    UpdateKeeps(ds, ds', d, events);
  }

  // Whatever an approved request brings about, it brings about once per deal and stage, and keeps everything coupled.
  lemma ApproveCases(ds: Deals, d: DealId, c: ConfirmationId, company: CompanyId, user: UserId, now: Time)
    requires DealsInv(ds) && ApproveDealConfirmation(ds, d, c, company, user, now).Ok?
    ensures d in ds.deals && c in ds.confirmations && ds.confirmations[c].deal == d
    ensures var ds' := ApproveDealConfirmation(ds, d, c, company, user, now).value;
            var request, row := ds.confirmations[c], ds.deals[d];
            var earlier := [ConfirmationApproved(c, d)];
            && request.status == AwaitingApproval && company == request.counterparty && !request.ExpiredAt(now)
            && ds'.confirmations == ds.confirmations[c := request.(status := Approved)]
            && ds'.projections == ds.projections
            && match request.stage {
                 case StageConfirmed => ConfirmedBy(ds, ds', d, now, earlier)
                 case StagePaid => false
                 case StageShipped =>
                   row.status == ShipmentRequested && Turns(ds, ds', d, row.(status := Shipped), earlier + [DealShipped(d)])
                 case StageCompleted =>
                   row.status == Shipped && Turns(ds, ds', d, row.(status := Completed), earlier + [DealCompleted(d)])
                 case StageCancelled =>
                   CancelledBy(ds, ds', d, if request.comment == NoReason then DEFAULT_CANCEL_REASON else request.comment,
                               Party(request.requestedBy), earlier)
               }
  {
    hide DealsInv, Attempts, DealRow.Cancel;
    var row, request := ds.deals[d], ds.confirmations[c];
    DealKeyed(ds, d);
    BuyerNamed(ds, d);
    if row.status != Cancelled {
      CurrentDeal(ds, d);
    }
    var approved := request.(status := Approved);
    var change := row.ApplyApprovedConfirmation(approved, now).value;
    assert ds.outbox + [ConfirmationApproved(c, d)] + change.events == ds.outbox + ([ConfirmationApproved(c, d)] + change.events);
    if request.stage == StageCancelled {
      var reason := if request.comment == NoReason then DEFAULT_CANCEL_REASON else request.comment;
      CancelForfeits(row, reason, Party(request.requestedBy));
    } else if request.stage == StageConfirmed {
      var more := [WinnerConfirmed(d, row.auction, row.customer, row.unitPrice)];
      assert ds.outbox + [ConfirmationApproved(c, d)] + change.events + more
          == ds.outbox + ([ConfirmationApproved(c, d)] + (change.events + more));
    }
  }

  lemma ApproveDealConfirmationKeeps(ds: Deals, d: DealId, c: ConfirmationId, company: CompanyId, user: UserId, now: Time)
    requires DealsInv(ds) && ApproveDealConfirmation(ds, d, c, company, user, now).Ok?
    ensures Continues(ds, ApproveDealConfirmation(ds, d, c, company, user, now).value)
  {
    ApproveCases(ds, d, c, company, user, now);
    var ds' := ApproveDealConfirmation(ds, d, c, company, user, now).value;
    var request, row := ds.confirmations[c], ds.deals[d];
    var earlier := [ConfirmationApproved(c, d)];
    hide ApproveDealConfirmation, Continues, DealRow.Cancel;
    match request.stage {
      case StageConfirmed => ConfirmKeeps(ds, ds', d, now, earlier);
      case StageShipped => ShipOrCompleteKeeps(ds, ds', d, Shipped, earlier + [DealShipped(d)]);
      case StageCompleted => ShipOrCompleteKeeps(ds, ds', d, Completed, earlier + [DealCompleted(d)]);
      case StageCancelled =>
        CancelKeeps(ds, ds', d, if request.comment == NoReason then DEFAULT_CANCEL_REASON else request.comment,
                    Party(request.requestedBy), earlier);
    }
  }

  lemma ShipOrCompleteKeeps(ds: Deals, ds': Deals, d: DealId, status: DealStatus, events: seq<DealEvent>)
    requires DealsInv(ds) && d in ds.deals && Turns(ds, ds', d, ds.deals[d].(status := status), events)
    requires (ds.deals[d].status, status) in {(ShipmentRequested, Shipped), (Shipped, Completed)}
    requires forall e | e in events :: e.ConfirmationApproved? || e.DealShipped? || e.DealCompleted?
    ensures Continues(ds, ds')
  {
    hide DealsInv, Attempts, Continues;
    var row := ds.deals[d];
    DealFits(ds, d);
    CurrentDeal(ds, d);
    hide Turns;
    TurnKeeps(ds, ds', d, row.(status := status), events);
  }

  lemma CreateProjectionKeeps(ds: Deals, a: AuctionId, supplier: CompanyId, productNamed: bool, startPrice: int, publishedAt: Time)
    requires DealsInv(ds) && CreateProjection(ds, a, supplier, productNamed, startPrice, publishedAt).Ok?
    ensures Continues(ds, CreateProjection(ds, a, supplier, productNamed, startPrice, publishedAt).value)
  {
    hide DealsInv, Continues;
    PaperworkKeeps(ds, CreateProjection(ds, a, supplier, productNamed, startPrice, publishedAt).value, []);
  }

  lemma RequestDealConfirmationKeeps(ds: Deals, d: DealId, c: ConfirmationId, stage: Stage, company: CompanyId,
                                     user: UserId, comment: CancelReason, expiresAt: Option<Time>)
    requires DealsInv(ds) && RequestDealConfirmation(ds, d, c, stage, company, user, comment, expiresAt).Ok?
    ensures Continues(ds, RequestDealConfirmation(ds, d, c, stage, company, user, comment, expiresAt).value)
  {
    hide DealsInv, Continues;
    PaperworkKeeps(ds, RequestDealConfirmation(ds, d, c, stage, company, user, comment, expiresAt).value, [ConfirmationRequested(c, d)]);
  }

  lemma RejectDealConfirmationKeeps(ds: Deals, d: DealId, c: ConfirmationId, company: CompanyId, user: UserId, now: Time)
    requires DealsInv(ds) && RejectDealConfirmation(ds, d, c, company, user, now).Ok?
    ensures Continues(ds, RejectDealConfirmation(ds, d, c, company, user, now).value)
  {
    hide DealsInv, Continues;
    PaperworkKeeps(ds, RejectDealConfirmation(ds, d, c, company, user, now).value, [ConfirmationRejected(c, d)]);
  }
}
