/**
 The deals use cases as the program runs them: load a deal and its auction's selection, change the objects, save them
 and add events to the outbox. Each is proved to commit exactly the state DealsRules gives, or to report exactly its
 error; what a failed use case leaves behind is not promised, because the transaction around it is rolled back.
 */
module DealsStore {
  import opened Common
  import opened DealDomain
  import opened SelectionDomain
  import opened DealsRules

  // The error and, on success, the state are those of r.
  predicate Committed(r: Result<Deals>, err: Option<Error>, after: Deals) {
    err == r.Failure() && (err.None? ==> after == r.value)
  }

  class Store {
    var projections: map<AuctionId, Projection>
    var deals: map<DealId, DealRow>
    var selections: map<AuctionId, SelectionRow>
    var confirmations: map<ConfirmationId, ConfirmationRow>
    var outbox: seq<DealEvent>

    constructor ()
      ensures State() == NO_DEALS
    {
      projections, deals, selections, confirmations, outbox := map[], map[], map[], map[], [];
    }

    function State(): Deals
      reads this
    {
      Deals(projections, deals, selections, confirmations, outbox)
    }

    // Puts back the tables a transaction started from.
    method Restore(ds: Deals)
      modifies this
      ensures State() == ds
    {
      projections, deals, selections, confirmations, outbox := ds.projections, ds.deals, ds.selections, ds.confirmations, ds.outbox;
    }

    // ---------- repositories ----------

    method SaveDeal(key: DealId, item: Deal)
      modifies this
      ensures State() == old(State()).(deals := old(deals)[key := old(item.Value())])
    {
      deals := deals[key := item.Value()];
    }

    method SaveSelection(sel: WinnerSelection)
      modifies this
      ensures State() == old(State()).(selections := old(selections)[sel.base.auction := old(sel.Value())])
    {
      selections := selections[sel.base.auction := sel.Value()];
    }

    method CreateProjection(auction: AuctionId, supplier: CompanyId, productNamed: bool, startPrice: int, publishedAt: Time)
      returns (err: Option<Error>)
      modifies this
      ensures Committed(DealsRules.CreateProjection(old(State()), auction, supplier, productNamed, startPrice, publishedAt), err, State())
    {
      if auction == NO_ID { return Some(ErrAuctionIDRequired); }
      if supplier == NO_ID { return Some(ErrSupplierIDRequired); }
      if startPrice <= 0 { return Some(ErrStartPriceMustBePositive); }
      if publishedAt == ZERO_TIME { return Some(ErrPublishedAtRequired); }
      if auction in projections { return None; }
      projections := projections[auction := Projection(supplier, productNamed, false)];
      return None;
    }

    // ---------- the selection and its deals ----------

    // Creates, checks and stores the deal of one candidate.
    method CreateAttempt(sel: WinnerSelection, winner: CompanyId, newDeal: DealId) returns (err: Option<Error>, events: seq<DealEvent>)
      modifies this
      ensures var r := NewAttempt(old(sel.Value()), winner, newDeal);
              && err == r.Failure()
              && (r.Ok? ==> events == r.value.events
                            && State() == old(State()).(deals := old(deals)[newDeal := r.value.row]))
    {
      events := [];
      var created := CreateFromSelection(newDeal, sel.base.auction, sel.base.supplier, sel.base.productNamed, winner,
                                         sel.base.finalPrice, sel.base.wonAt);
      err := created.Failure();
      if err.Some? { return; }
      err := created.value.row.Validate();
      if err.Some? { return; }
      deals := deals[newDeal := created.value.row];
      events := created.value.events;
    }

    method CreateDealSelectionFromAuctionWon(auction: AuctionId, winners: seq<CompanyId>, finalPrice: int, wonAt: Time, newDeal: DealId)
      returns (err: Option<Error>)
      modifies this
      ensures Committed(CreateDealSelection(old(State()), auction, winners, finalPrice, wonAt, newDeal), err, State())
    {
      if auction == NO_ID { return Some(ErrAuctionIDRequired); }
      if winners == [] { return Some(ErrWinnerCandidatesRequired); }
      if finalPrice <= 0 { return Some(ErrFinalPriceRequired); }
      if wonAt == ZERO_TIME { return Some(ErrWonAtRequired); }
      if auction !in projections { return Some(ErrProjectionNotFound); }
      var projection := projections[auction];
      var sel: WinnerSelection;
      if auction in selections {
        sel := new WinnerSelection(selections[auction]);
      } else {
        sel := new WinnerSelection(NewWinnerSelection(auction, winners, finalPrice, wonAt, projection.supplier, projection.productNamed));
      }
      if sel.deal != NO_ID { return None; }
      var current := sel.CurrentCandidate();
      if current.None? {
        sel.MarkExhausted();
        SaveSelection(sel);
        return Some(ErrNoAvailableWinner);
      }
      var events;
      err, events := CreateAttempt(sel, current.value, newDeal);
      if err.Some? { return; }
      projections := projections[auction := projection.(converted := true)];
      sel.AssignDeal(newDeal);
      SaveSelection(sel);
      outbox := outbox + events;
    }

    // The end of a decline and of an expired invoice: advance the selection and open the next candidate's deal.
    method Advance(sel: WinnerSelection, auction: AuctionId, newDeal: DealId, earlier: seq<DealEvent>) returns (err: Option<Error>)
      modifies this, sel
      ensures Committed(Fallback(old(State()), old(sel.Value()), auction, newDeal, earlier), err, State())
    {
      var advanced := sel.Advance();
      if !advanced {
        SaveSelection(sel);
        outbox := outbox + earlier + [WinnerSelectionFailed(auction)];
        return None;
      }
      var next := sel.CurrentCandidate();
      if next.None? {
        sel.MarkExhausted();
        SaveSelection(sel);
        outbox := outbox + earlier + [WinnerSelectionFailed(auction)];
        return None;
      }
      var events;
      err, events := CreateAttempt(sel, next.value, newDeal);
      if err.Some? { return; }
      sel.AssignDeal(newDeal);
      SaveSelection(sel);
      var rank := if sel.currentIndex >= 0 then sel.currentIndex + 1 else 0;
      outbox := outbox + earlier + events + [NextWinnerSelected(sel.base.auction, next.value, rank, newDeal)];
    }

    method HandleDealDeclined(auction: AuctionId, deal: DealId, newDeal: DealId) returns (err: Option<Error>)
      modifies this
      ensures Committed(DealsRules.HandleDealDeclined(old(State()), auction, deal, newDeal), err, State())
    {
      hide Fallback;
      var resolved := auction;
      if resolved == NO_ID && deal != NO_ID {
        if deal !in deals { return Some(ErrDealNotFound); }
        resolved := deals[deal].auction;
      }
      if resolved == NO_ID { return Some(ErrAuctionIDRequired); }
      if resolved !in selections { return Some(ErrSelectionNotFound); }
      var sel := new WinnerSelection(selections[resolved]);
      if sel.status == Exhausted { return Some(ErrNoAvailableWinner); }
      var effective := deal;
      if effective == NO_ID { effective := sel.deal; }
      if effective != NO_ID && sel.deal != NO_ID && sel.deal != effective { return Some(ErrStaleWinnerSelection); }
      if sel.status == ConfirmedPendingPayment {
        if sel.deal == NO_ID { return Some(ErrWinnerSelectionDealMismatch); }
        if sel.deal !in deals { return Some(ErrDealNotFound); }
        if deals[sel.deal].status != Cancelled { return Some(ErrWinnerFallbackOnlyWhileActive); }
        var candidate := sel.CurrentCandidate();
        if candidate != Some(deals[sel.deal].customer) { return Some(ErrWrongSelectedCandidate); }
        err := sel.ReopenAfterPaymentTimeout(sel.deal);
        if err.Some? { return; }
      }
      var current := sel.CurrentCandidate();
      if current.None? { return Some(ErrNoAvailableWinner); }
      if sel.deal != NO_ID {
        if sel.deal !in deals { return Some(ErrDealNotFound); }
        if deals[sel.deal].status != Cancelled { return Some(ErrDealNotCancelledForFallback); }
        if deals[sel.deal].customer != current.value { return Some(ErrWrongSelectedCandidate); }
      }
      err := Advance(sel, resolved, newDeal, []);
    }

    // ---------- answers from billing ----------

    method HandleDealInvoiceExpired(deal: DealId, auction: AuctionId, buyer: CompanyId, newDeal: DealId) returns (err: Option<Error>)
      modifies this
      ensures Committed(DealsRules.HandleDealInvoiceExpired(old(State()), deal, auction, buyer, newDeal), err, State())
    {
      hide Fallback;
      if deal == NO_ID { return Some(ErrDealIDRequired); }
      if auction == NO_ID { return Some(ErrAuctionIDRequired); }
      if buyer == NO_ID { return Some(ErrCustomerIDRequired); }
      if deal !in deals { return Some(ErrDealNotFound); }
      var item := new Deal(deals[deal]);
      if item.status == Paid || item.status == Cancelled { return None; }
      if item.base.auction != auction || item.base.customer != buyer { return Some(ErrStaleWinnerSelection); }
      if !PostConfirmPrePaid(item.status) { return Some(ErrCannotCancelForPaymentTimeout); }
      if auction !in selections { return Some(ErrSelectionNotFound); }
      var sel := new WinnerSelection(selections[auction]);
      if sel.status != ConfirmedPendingPayment { return None; }
      if sel.deal != item.base.id { return None; }
      var cancelled;
      err, cancelled := item.Cancel(PaymentTimeout, System);
      if err.Some? { return; }
      SaveDeal(deal, item);
      err := sel.ReopenAfterPaymentTimeout(item.base.id);
      if err.Some? { return; }
      err := Advance(sel, auction, newDeal, cancelled);
    }

    method HandleDealInvoicePaid(deal: DealId, auction: AuctionId, buyer: CompanyId, goods: int, feeDue: int, amount: int)
      returns (err: Option<Error>)
      modifies this
      ensures Committed(DealsRules.HandleDealInvoicePaid(old(State()), deal, auction, buyer, goods, feeDue, amount), err, State())
    {
      if deal == NO_ID { return Some(ErrDealIDRequired); }
      if auction == NO_ID { return Some(ErrAuctionIDRequired); }
      if buyer == NO_ID { return Some(ErrCustomerIDRequired); }
      if deal !in deals { return Some(ErrDealNotFound); }
      var item := new Deal(deals[deal]);
      if item.status == Cancelled { return Some(ErrDealCancelledPayment); }
      if item.status == Paid { return None; }
      if item.base.customer != buyer { return Some(ErrNotDealParticipant); }
      if item.base.auction != auction { return Some(ErrStaleWinnerSelection); }
      err := ValidateDealInvoicePaidPayload(item.Value(), goods, feeDue, amount);
      if err.Some? { return; }
      if item.status != PaymentRequested { return Some(ErrCannotMarkAsPaid); }
      var paid;
      err, paid := item.MarkAsPaid();
      if err.Some? { return; }
      if auction !in selections { return Some(ErrSelectionNotFound); }
      var sel := new WinnerSelection(selections[auction]);
      if sel.deal != item.base.id { return Some(ErrWinnerSelectionDealMismatch); }
      if sel.status == Finalized {
        SaveDeal(deal, item);
        outbox := outbox + paid;
        return None;
      }
      if sel.status != ConfirmedPendingPayment { return Some(ErrWinnerSelectionNotAwaitingPayment); }
      err := sel.MarkFinalized(item.base.id);
      if err.Some? { return; }
      var candidate := sel.CurrentCandidate();
      if candidate.None? { return Some(ErrNoAvailableWinnerCandidate); }
      SaveDeal(deal, item);
      SaveSelection(sel);
      outbox := outbox + paid + [WinnerSelectionFinalized(item.base.id, auction, candidate.value, sel.base.finalPrice, goods, feeDue)];
    }

    // ---------- commands on one deal ----------

    method PrepareContract(deal: DealId, number: nat, now: Time) returns (err: Option<Error>)
      modifies this
      ensures Committed(DealsRules.PrepareContract(old(State()), deal, number, now), err, State())
    {
      if deal == NO_ID { return Some(ErrDealIDRequired); }
      if deal !in deals { return Some(ErrDealNotFound); }
      var item := new Deal(deals[deal]);
      var nextNumber := number;
      if nextNumber == NO_ID { nextNumber := GENERATED_CONTRACT_NUMBER; }
      var events;
      err, events := item.PrepareContract(nextNumber, now);
      if err.Some? { return; }
      SaveDeal(deal, item);
      outbox := outbox + events;
    }

    method SignContract(deal: DealId, signedBy: UserId, signatureRef: nat, now: Time) returns (err: Option<Error>)
      modifies this
      ensures Committed(DealsRules.SignContract(old(State()), deal, signedBy, signatureRef, now), err, State())
    {
      if signedBy == NO_ID { return Some(ErrSignedByRequired); }
      if signatureRef == NO_ID { return Some(ErrSignatureRefRequired); }
      if deal == NO_ID { return Some(ErrDealIDRequired); }
      if deal !in deals { return Some(ErrDealNotFound); }
      var item := new Deal(deals[deal]);
      var events;
      err, events := item.SignContract(now);
      if err.Some? { return; }
      SaveDeal(deal, item);
      outbox := outbox + events;
    }

    method RequestPayment(deal: DealId, dueAt: Time) returns (err: Option<Error>)
      modifies this
      ensures Committed(DealsRules.RequestPayment(old(State()), deal, dueAt), err, State())
    {
      if deal == NO_ID { return Some(ErrDealIDRequired); }
      if deal !in deals { return Some(ErrDealNotFound); }
      var item := new Deal(deals[deal]);
      if item.base.kind == AuctionDeal && item.base.auction != NO_ID {
        if item.base.auction !in selections { return Some(ErrWinnerSelectionMissingForAuctionDeal); }
        var sel := selections[item.base.auction];
        if sel.deal != item.base.id { return Some(ErrWinnerSelectionDealMismatch); }
        if sel.status != ConfirmedPendingPayment { return Some(ErrWinnerSelectionNotAwaitingPayment); }
      }
      var events;
      err, events := item.RequestPayment(dueAt);
      if err.Some? { return; }
      SaveDeal(deal, item);
      outbox := outbox + events;
    }

    method RequestShipment(deal: DealId) returns (err: Option<Error>)
      modifies this
      ensures Committed(DealsRules.RequestShipment(old(State()), deal), err, State())
    {
      if deal == NO_ID { return Some(ErrDealIDRequired); }
      if deal !in deals { return Some(ErrDealNotFound); }
      var item := new Deal(deals[deal]);
      var events;
      err, events := item.RequestShipment();
      if err.Some? { return; }
      SaveDeal(deal, item);
      outbox := outbox + events;
    }

    method CancelDeal(deal: DealId, reason: CancelReason, actor: Option<Actor>) returns (err: Option<Error>)
      modifies this
      ensures Committed(DealsRules.CancelDeal(old(State()), deal, reason, actor), err, State())
    {
      if reason == NoReason { return Some(ErrReasonRequired); }
      if actor.None? { return Some(ErrCancelledByRequired); }
      if deal == NO_ID { return Some(ErrDealIDRequired); }
      if deal !in deals { return Some(ErrDealNotFound); }
      var item := new Deal(deals[deal]);
      var events;
      err, events := item.Cancel(reason, actor.value);
      if err.Some? { return; }
      SaveDeal(deal, item);
      outbox := outbox + events;
    }

    // ---------- confirmation requests ----------

    method RequestDealConfirmation(deal: DealId, newConfirmation: ConfirmationId, stage: Stage, company: CompanyId,
                                   user: UserId, comment: CancelReason, expiresAt: Option<Time>) returns (err: Option<Error>)
      modifies this
      ensures Committed(DealsRules.RequestDealConfirmation(old(State()), deal, newConfirmation, stage, company, user, comment, expiresAt),
                        err, State())
    {
      if deal == NO_ID { return Some(ErrDealIDRequired); }
      if deal !in deals { return Some(ErrDealNotFound); }
      if HasPendingConfirmation(State(), deal, stage) { return Some(ErrConfirmationAlreadyPending); }
      var created := deals[deal].RequestConfirmation(newConfirmation, stage, company, user, comment, expiresAt);
      err := created.Failure();
      if err.Some? { return; }
      confirmations := confirmations[newConfirmation := created.value];
      outbox := outbox + [ConfirmationRequested(newConfirmation, deal)];
    }

    // When the deal has just been confirmed, its selection starts waiting for payment.
    method AppendAuctionWinnerConfirmedIfNeeded(item: DealRow) returns (err: Option<Error>, events: seq<DealEvent>)
      modifies this
      ensures var r := ConfirmCurrentWinner(old(State()), item);
              && err == r.Failure()
              && (r.Ok? ==> State() == old(State()).(selections := r.value.selections) && events == ConfirmedEvents(item))
    {
      events := [];
      if item.kind != AuctionDeal || item.auction == NO_ID { return None, []; }
      if item.status != Confirmed { return None, []; }
      if item.auction !in selections { return Some(ErrWinnerSelectionMissingForAuctionDeal), []; }
      var sel := new WinnerSelection(selections[item.auction]);
      var candidate := sel.CurrentCandidate();
      if candidate != Some(item.customer) { return Some(ErrWrongSelectedCandidate), []; }
      err := sel.MarkCurrentConfirmed(item.id);
      if err.Some? { return; }
      SaveSelection(sel);
      if item.confirmedAt.None? { return Some(ErrCannotConfirmDeal), []; }
      events := [WinnerConfirmed(item.id, item.auction, item.customer, item.unitPrice)];
    }

    method ApproveDealConfirmation(deal: DealId, confirmation: ConfirmationId, company: CompanyId, user: UserId, now: Time)
      returns (err: Option<Error>)
      modifies this
      ensures Committed(DealsRules.ApproveDealConfirmation(old(State()), deal, confirmation, company, user, now), err, State())
    {
      hide DealRow.ApplyApprovedConfirmation, ConfirmationRow.Answer, ConfirmCurrentWinner;
      if deal == NO_ID { return Some(ErrDealIDRequired); }
      if confirmation == NO_ID { return Some(ErrConfirmationIDRequired); }
      if deal !in deals { return Some(ErrDealNotFound); }
      if confirmation !in confirmations { return Some(ErrConfirmationNotFound); }
      var item := new Deal(deals[deal]);
      var request := new DealConfirmation(confirmations[confirmation]);
      if request.base.deal != item.base.id { return Some(ErrConfirmationDealMismatch); }
      err := request.Approve(company, user, now);
      if err.Some? { return; }
      var changed;
      err, changed := item.ApplyApprovedConfirmation(request.Value(), now);
      if err.Some? { return; }
      ghost var before := State();
      ghost var after := before.(confirmations := confirmations[confirmation := request.Value()],
                                 deals := deals[deal := item.Value()],
                                 outbox := outbox + [ConfirmationApproved(confirmation, deal)] + changed);
      ConfirmCurrentWinnerElsewhere(before, after, item.Value());
      var extra;
      err, extra := AppendAuctionWinnerConfirmedIfNeeded(item.Value());
      if err.Some? { return; }
      confirmations := confirmations[confirmation := request.Value()];
      SaveDeal(deal, item);
      outbox := outbox + ([ConfirmationApproved(confirmation, deal)] + changed + extra);
    }

    method RejectDealConfirmation(deal: DealId, confirmation: ConfirmationId, company: CompanyId, user: UserId, now: Time)
      returns (err: Option<Error>)
      modifies this
      ensures Committed(DealsRules.RejectDealConfirmation(old(State()), deal, confirmation, company, user, now), err, State())
    {
      if deal == NO_ID { return Some(ErrDealIDRequired); }
      if confirmation == NO_ID { return Some(ErrConfirmationIDRequired); }
      if deal !in deals { return Some(ErrDealNotFound); }
      if confirmation !in confirmations { return Some(ErrConfirmationNotFound); }
      var request := new DealConfirmation(confirmations[confirmation]);
      if request.base.deal != deals[deal].id { return Some(ErrConfirmationDealMismatch); }
      err := request.Reject(company, user, now);
      if err.Some? { return; }
      confirmations := confirmations[confirmation := request.Value()];
      outbox := outbox + [ConfirmationRejected(confirmation, deal)];
    }
  }

  // The events a confirmation adds.
  function ConfirmedEvents(row: DealRow): seq<DealEvent> {
    if row.kind == AuctionDeal && row.auction != NO_ID && row.status == Confirmed
    then [WinnerConfirmed(row.id, row.auction, row.customer, row.unitPrice)] else []
  }

  // Confirming the current winner looks at the selections only, and adds to whatever the outbox holds.
  lemma ConfirmCurrentWinnerElsewhere(ds: Deals, ds2: Deals, row: DealRow)
    requires ds2.selections == ds.selections
    ensures var r, r2 := ConfirmCurrentWinner(ds, row), ConfirmCurrentWinner(ds2, row);
            && r2.Failure() == r.Failure()
            && (r.Ok? ==>
                  && r.value.outbox == ds.outbox + ConfirmedEvents(row)
                  && r2.value == ds2.(selections := r.value.selections, outbox := ds2.outbox + ConfirmedEvents(row)))
  {
  }
}
