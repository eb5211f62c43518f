/**
 When each deals operation is accepted, and exactly what it changes, told from the stored rows alone, with every reason,
 status and stage written out: in all states that keep the deals invariant, and for all arguments.
 */
module DealsAnswers {
  import opened Common
  import opened DealDomain
  import opened SelectionDomain
  import opened DealsRules
  import opened DealsInvariants
  import opened DealsOutcomes

  // ds' is ds with one deal's row replaced and events added.
  predicate Rewrites(ds: Deals, ds': Deals, d: DealId, row: DealRow, events: seq<DealEvent>) {
    ds' == ds.(deals := ds.deals[d := row], outbox := ds.outbox + events)
  }

  lemma StoredDeal(ds: Deals, d: DealId)
    requires DealsInv(ds) && d in ds.deals
    ensures var row := ds.deals[d];
            && d != NO_ID && row.id == d && row.kind == AuctionDeal && row.auction != NO_ID && row.quantity == 1
            && row.customer != NO_ID && row.supplier != NO_ID && row.auction in ds.selections
            && (row.status in {Pending, Confirmed} ==> row.contract.NoContract?)
            && (row.status == ContractPrepared ==> row.contract.Contract? && row.contract.signedAt.None?)
            && (row.status == ContractSigned ==> row.contract.Contract? && row.contract.signedAt.Some?)
  {
    DealsParts(ds);
    DealKeyed(ds, d);
    BuyerNamed(ds, d);
    var a := ds.deals[d].auction;
    assert DealOk(ds, d) && SelectionOk(ds, a);
    var attempts := Attempts(ds.outbox, a);
    hide Attempts, DealsInv;
    var k :| 0 <= k < |attempts| && attempts[k] == d;
    assert AttemptFits(ds, ds.selections[a], k, attempts[k]);
  }

  // ---------- cancellation ----------

  // The reasons with which an operator or the scheduler rejects a winner who does not confirm.
  predicate Rejects(reason: CancelReason) {
    reason == WinnerRejectedReason || reason == ConfirmationTimeout || reason == LegacyDeadlineExceeded
  }

  // A cancellation forfeits the deposit of a winner who does not confirm, or does not pay, or backs out before paying.
  predicate Forfeits(row: DealRow, reason: CancelReason, actor: Actor) {
    || Rejects(reason) || reason == PaymentTimeout
    || (actor == Party(row.customer)
        && (row.status == Pending || row.status == Confirmed || row.status == ContractPrepared || row.status == ContractSigned
            || row.status == PaymentRequested))
  }

  // The reason its event gives.
  function Recorded(reason: CancelReason): CancelReason {
    match reason
    case WinnerRejectedReason => WinnerRejectedReason
    case ConfirmationTimeout => ConfirmationTimeout
    case LegacyDeadlineExceeded => ConfirmationTimeout
    case PaymentTimeout => PaymentTimeout
    case _ => BuyerInitiatedCancel
  }

  // An auction's deal can be cancelled until it is completed: for rejecting its winner only while it is pending, for a
  // payment timeout only between confirmation (or contract) and payment, for anything else at any time.
  lemma CancelIff(row: DealRow, reason: CancelReason, actor: Actor)
    requires row.kind == AuctionDeal && row.auction != NO_ID
    ensures var r := row.Cancel(reason, actor);
            && (r.Ok? <==>
                  && row.status != Completed && row.status != Cancelled
                  && (Rejects(reason) ==> row.status == Pending)
                  && (reason == PaymentTimeout ==>
                        || row.status == Confirmed || row.status == ContractPrepared || row.status == ContractSigned
                        || row.status == PaymentRequested))
            && (r.Ok? ==>
                  && r.value.row == row.(status := Cancelled)
                  && r.value.events == if Forfeits(row, reason, actor)
                                       then [DealCancelled(row.id, reason), WinnerRejected(row.id, row.auction, row.customer, Recorded(reason))]
                                       else [DealCancelled(row.id, reason)])
  {
  }

  lemma CancelDealIff(ds: Deals, d: DealId, reason: CancelReason, actor: Option<Actor>)
    requires DealsInv(ds)
    ensures var r := CancelDeal(ds, d, reason, actor);
            && (r.Ok? <==>
                  && reason != NoReason && actor.Some? && d in ds.deals
                  && var status := ds.deals[d].status;
                     && status != Completed && status != Cancelled
                     && (Rejects(reason) ==> status == Pending)
                     && (reason == PaymentTimeout ==>
                           status == Confirmed || status == ContractPrepared || status == ContractSigned || status == PaymentRequested))
            && (r.Ok? ==>
                  var row := ds.deals[d];
                  Rewrites(ds, r.value, d, row.(status := Cancelled),
                           if Forfeits(row, reason, actor.value)
                           then [DealCancelled(d, reason), WinnerRejected(d, row.auction, row.customer, Recorded(reason))]
                           else [DealCancelled(d, reason)]))
  {
    hide DealsInv, DealRow.Cancel, Forfeits, Recorded;
    BlankIsNotStored(ds);
    if d in ds.deals {
      StoredDeal(ds, d);
      if actor.Some? {
        CancelIff(ds.deals[d], reason, actor.value);
      }
    }
  }

  lemma BlankIsNotStored(ds: Deals)
    requires DealsInv(ds)
    ensures NO_ID !in ds.deals
  {
    DealsParts(ds);
    forall d | d in ds.deals
      ensures d != NO_ID
    {
      assert DealOk(ds, d);
    }
  }

  // ---------- contract, payment request, shipment ----------

  // A contract is prepared for a pending or a confirmed deal; without a number it gets one.
  lemma PrepareContractIff(ds: Deals, d: DealId, number: nat, now: Time)
    requires DealsInv(ds)
    ensures var r := PrepareContract(ds, d, number, now);
            && (r.Ok? <==> d in ds.deals && (ds.deals[d].status == Pending || ds.deals[d].status == Confirmed))
            && (r.Ok? ==>
                  && d in r.value.deals && r.value.deals[d].contract.Contract?
                  && var given := r.value.deals[d].contract.number;
                     && given != NO_ID && (number != NO_ID ==> given == number)
                     && Rewrites(ds, r.value, d, ds.deals[d].(status := ContractPrepared, contract := Contract(given, now, None)),
                                 [ContractPreparedEvent(d)]))
  {
    hide DealsInv;
    BlankIsNotStored(ds);
    if d in ds.deals {
      StoredDeal(ds, d);
    }
  }

  // A prepared contract is signed once, by somebody and with a signature.
  lemma SignContractIff(ds: Deals, d: DealId, signedBy: UserId, signatureRef: nat, now: Time)
    requires DealsInv(ds)
    ensures var r := SignContract(ds, d, signedBy, signatureRef, now);
            && (r.Ok? <==> d in ds.deals && ds.deals[d].status == ContractPrepared && signedBy != NO_ID && signatureRef != NO_ID)
            && (r.Ok? ==>
                  var row := ds.deals[d];
                  && row.contract.Contract?
                  && Rewrites(ds, r.value, d, row.(status := ContractSigned, contract := row.contract.(signedAt := Some(now))),
                              [ContractSignedEvent(d)]))
  {
    hide DealsInv;
    BlankIsNotStored(ds);
    if d in ds.deals {
      StoredDeal(ds, d);
    }
  }

  // Payment is requested for a deal that was confirmed and whose contract is signed.
  lemma RequestPaymentIff(ds: Deals, d: DealId, dueAt: Time)
    requires DealsInv(ds)
    ensures var r := RequestPayment(ds, d, dueAt);
            && (r.Ok? <==> d in ds.deals && ds.deals[d].status == ContractSigned && ds.deals[d].confirmedAt.Some?)
            && (r.Ok? ==>
                  var row := ds.deals[d];
                  Rewrites(ds, r.value, d, row.(status := PaymentRequested),
                           [PaymentRequestedEvent(d, row.auction, row.customer, row.supplier, row.unitPrice, dueAt)]))
  {
    hide DealsInv, Attempts;
    BlankIsNotStored(ds);
    if d in ds.deals {
      StoredDeal(ds, d);
      if ds.deals[d].status != Cancelled {
        CurrentDeal(ds, d);
        DealKeyed(ds, d);
      }
    }
  }

  // Exactly a paid deal is shipped.
  lemma RequestShipmentIff(ds: Deals, d: DealId)
    requires DealsInv(ds)
    ensures var r := RequestShipment(ds, d);
            && (r.Ok? <==> d in ds.deals && ds.deals[d].status == Paid)
            && (r.Ok? ==> Rewrites(ds, r.value, d, ds.deals[d].(status := ShipmentRequested), [ShipmentRequestedEvent(d)]))
  {
    hide DealsInv;
    BlankIsNotStored(ds);
    if d in ds.deals {
      StoredDeal(ds, d);
    }
  }

  // ---------- confirmation requests ----------

  // The stages a deal can be asked to take next.
  predicate StageOpen(status: DealStatus, stage: Stage) {
    || (stage == StageConfirmed && status == Pending)
    || (stage == StageShipped && status == ShipmentRequested)
    || (stage == StageCompleted && status == Shipped)
    || (stage == StageCancelled && status != Completed && status != Cancelled)
  }

  // One party asks the other, if nothing waits for that stage yet.
  lemma RequestDealConfirmationIff(ds: Deals, d: DealId, c: ConfirmationId, stage: Stage, company: CompanyId, user: UserId,
                                   comment: CancelReason, expiresAt: Option<Time>)
    requires DealsInv(ds)
    ensures var r := RequestDealConfirmation(ds, d, c, stage, company, user, comment, expiresAt);
            && (r.Ok? <==>
                  && d in ds.deals && c != NO_ID && user != NO_ID && StageOpen(ds.deals[d].status, stage)
                  && company in {ds.deals[d].customer, ds.deals[d].supplier} && ds.deals[d].customer != ds.deals[d].supplier
                  && forall q | q in ds.confirmations ::
                       ds.confirmations[q].deal != d || ds.confirmations[q].stage != stage || ds.confirmations[q].status != AwaitingApproval)
            && (r.Ok? ==>
                  var other := if company == ds.deals[d].customer then ds.deals[d].supplier else ds.deals[d].customer;
                  r.value == ds.(confirmations := ds.confirmations[c := ConfirmationRow(c, d, stage, user, company, other, comment,
                                                                                        expiresAt, AwaitingApproval)],
                                 outbox := ds.outbox + [ConfirmationRequested(c, d)]))
  {
    hide DealsInv;
    BlankIsNotStored(ds);
    if d in ds.deals {
      StoredDeal(ds, d);
    }
  }

  // What a rejection leaves behind: the answered request and its event.
  lemma RejectDealConfirmationDoes(ds: Deals, d: DealId, c: ConfirmationId, company: CompanyId, user: UserId, now: Time)
    requires RejectDealConfirmation(ds, d, c, company, user, now).Ok?
    ensures c in ds.confirmations
    ensures RejectDealConfirmation(ds, d, c, company, user, now).value
         == ds.(confirmations := ds.confirmations[c := ds.confirmations[c].(status := Rejected)],
                outbox := ds.outbox + [ConfirmationRejected(c, d)])
  {
  }

  // ---------- projections and selections ----------

  // The seller of an auction is remembered once.
  lemma CreateProjectionIff(ds: Deals, a: AuctionId, supplier: CompanyId, productNamed: bool, startPrice: int, publishedAt: Time)
    ensures var r := CreateProjection(ds, a, supplier, productNamed, startPrice, publishedAt);
            && (r.Ok? <==> a != NO_ID && supplier != NO_ID && startPrice > 0 && publishedAt != 0)
            && (r.Ok? ==>
                  r.value == if a in ds.projections then ds
                             else ds.(projections := ds.projections[a := Projection(supplier, productNamed, false)]))
  {
  }

  // The deal of the candidate under the cursor, as it is when it is opened.
  function NewDeal(sel: SelectionRow, id: DealId): DealRow
    requires 0 <= sel.currentIndex < |sel.candidates|
  {
    DealRow(id, sel.candidates[sel.currentIndex], sel.supplier, sel.auction, 1, sel.finalPrice, AuctionDeal, true, sel.wonAt, Pending,
            None, NoContract)
  }

  // A selection is opened once, on the first candidate, for an auction whose seller and product are known.
  lemma CreateDealSelectionIff(ds: Deals, a: AuctionId, winners: seq<CompanyId>, finalPrice: int, wonAt: Time, newDeal: DealId)
    requires DealsInv(ds) && a !in ds.selections && newDeal != NO_ID
    ensures var r := CreateDealSelection(ds, a, winners, finalPrice, wonAt, newDeal);
            && (r.Ok? <==>
                  && a != NO_ID && winners != [] && winners[0] != NO_ID && finalPrice > 0 && wonAt != 0
                  && a in ds.projections && ds.projections[a].supplier != NO_ID && ds.projections[a].productNamed)
            && (r.Ok? ==>
                  var projection := ds.projections[a];
                  var sel := SelectionRow(a, winners, 0, Active, finalPrice, wonAt, projection.supplier, true, newDeal);
                  r.value == ds.(deals := ds.deals[newDeal := NewDeal(sel, newDeal)],
                                 projections := ds.projections[a := projection.(converted := true)],
                                 selections := ds.selections[a := sel],
                                 outbox := ds.outbox + [DealCreated(newDeal, a, winners[0], finalPrice)]))
  {
  }

  // The state after falling back from the current deal of auction a.
  predicate NextOrNone(ds: Deals, ds': Deals, a: AuctionId, newDeal: DealId)
    requires a in ds.selections && ds.selections[a].currentIndex >= 0
  {
    var sel := ds.selections[a];
    if sel.status != Finalized && sel.currentIndex + 1 < |sel.candidates| then
      var next := sel.(currentIndex := sel.currentIndex + 1, status := Active, deal := newDeal);
      ds' == ds.(deals := ds.deals[newDeal := NewDeal(next, newDeal)], selections := ds.selections[a := next],
                 outbox := ds.outbox + [DealCreated(newDeal, a, sel.candidates[sel.currentIndex + 1], sel.finalPrice),
                                        NextWinnerSelected(a, sel.candidates[sel.currentIndex + 1], sel.currentIndex + 2, newDeal)])
    else
      && ds' == ds.(selections := ds'.selections, outbox := ds.outbox + [WinnerSelectionFailed(a)])
      && ds'.selections == ds.selections[a := if sel.status == Finalized then sel else sel.(status := Exhausted, deal := NO_ID)]
  }

  lemma FallbackDoes(ds: Deals, a: AuctionId, newDeal: DealId)
    requires a in ds.selections && SelectionShape(ds.selections[a], a) && ds.selections[a].status != Exhausted && newDeal != NO_ID
    ensures Fallback(ds, Reopened(ds.selections[a]), a, newDeal, []).Ok?
    ensures NextOrNone(ds, Fallback(ds, Reopened(ds.selections[a]), a, newDeal, []).value, a, newDeal)
  {
    FallbackValue(ds, a, newDeal);
    assert ds.outbox + [] == ds.outbox;
  }

  // A decline, by auction, by deal or by both, is of the cancelled current deal of a selection that is not exhausted;
  // the next candidate gets a deal, or the selection is exhausted.
  lemma HandleDealDeclinedIff(ds: Deals, auction: AuctionId, d: DealId, newDeal: DealId)
    requires DealsInv(ds) && newDeal != NO_ID
    ensures var r := HandleDealDeclined(ds, auction, d, newDeal);
            var a := if auction == NO_ID && d in ds.deals then ds.deals[d].auction else auction;
            && (r.Ok? <==>
                  && a in ds.selections && ds.selections[a].status != Exhausted
                  && (d == NO_ID || ds.selections[a].deal == d)
                  && ds.selections[a].deal in ds.deals && ds.deals[ds.selections[a].deal].status == Cancelled)
            && (r.Ok? ==> ds.selections[a].currentIndex >= 0 && NextOrNone(ds, r.value, a, newDeal))
            && (a in ds.selections && ds.selections[a].status == Exhausted ==> r == Err(ErrNoAvailableWinner))
  {
    hide DealsInv, Fallback, Attempts, NextOrNone;
    BlankIsNotStored(ds);
    var a := if auction == NO_ID && d in ds.deals then ds.deals[d].auction else auction;
    if a in ds.selections {
      SelectionStored(ds, a);
      if ds.selections[a].status != Exhausted {
        FallbackDoes(ds, a, newDeal);
      }
    }
    if d in ds.deals {
      StoredDeal(ds, d);
    }
  }

  lemma SelectionStored(ds: Deals, a: AuctionId)
    requires DealsInv(ds) && a in ds.selections
    ensures var sel := ds.selections[a];
            && SelectionShape(sel, a)
            && (sel.status != Exhausted ==>
                  && sel.deal != NO_ID && sel.deal in ds.deals && ds.deals[sel.deal].auction == a
                  && sel.CurrentCandidate() == Some(ds.deals[sel.deal].customer))
  {
    SelectionTrue(ds, a);
    var sel := ds.selections[a];
    assert AttemptFits(ds, sel, sel.currentIndex, Attempts(ds.outbox, a)[sel.currentIndex]);
    if sel.status != Exhausted {
      DealsParts(ds);
      assert DealOk(ds, sel.deal);
      assert sel.candidates[sel.currentIndex] in sel.candidates;
    }
    hide DealsInv;
  }

  // An expired invoice is accepted by a paid or cancelled deal, which stays as it is, and by the deal of the named auction
  // and buyer if that was confirmed or has a contract, and is not paid. Such a deal is cancelled for the timeout, its
  // deposit forfeited, and its auction falls back, all in one transaction, if it was confirmed; else nothing changes.
  lemma HandleDealInvoiceExpiredIff(ds: Deals, d: DealId, auction: AuctionId, buyer: CompanyId, newDeal: DealId)
    requires DealsInv(ds) && newDeal != NO_ID && newDeal !in ds.deals
    ensures var r := HandleDealInvoiceExpired(ds, d, auction, buyer, newDeal);
            && (r.Ok? <==>
                  && d in ds.deals && auction != NO_ID && buyer != NO_ID
                  && var row := ds.deals[d];
                     || row.status == Paid || row.status == Cancelled
                     || (&& row.auction == auction && row.customer == buyer
                         && (row.status == Confirmed || row.status == ContractPrepared || row.status == ContractSigned
                             || row.status == PaymentRequested)))
            && (r.Ok? && (ds.deals[d].status == Paid || ds.deals[d].status == Cancelled || ds.deals[d].confirmedAt.None?) ==> r.value == ds)
            && (r.Ok? && ds.deals[d].status != Paid && ds.deals[d].status != Cancelled && ds.deals[d].confirmedAt.Some? ==>
                  var row := ds.deals[d];
                  var cancelled := ds.(deals := ds.deals[d := row.(status := Cancelled)],
                                       outbox := ds.outbox + [DealCancelled(d, PaymentTimeout),
                                                              WinnerRejected(d, auction, buyer, PaymentTimeout)]);
                  && auction in ds.selections && ds.selections[auction].currentIndex >= 0
                  && NextOrNone(cancelled, r.value, auction, newDeal))
  {
    hide DealsInv, Fallback, Attempts, NextOrNone;
    BlankIsNotStored(ds);
    if d in ds.deals {
      StoredDeal(ds, d);
      var row := ds.deals[d];
      SelectionStored(ds, row.auction);
      if row.status != Cancelled {
        CurrentDeal(ds, d);
        if row.confirmedAt.Some? {
          FallbackDoes(TimedOut(ds, d), row.auction, newDeal);
          FallbackEarlier(ds.(deals := ds.deals[d := row.(status := Cancelled)]), Reopened(ds.selections[row.auction]), row.auction, newDeal,
                          [DealCancelled(d, PaymentTimeout), WinnerRejected(d, row.auction, row.customer, PaymentTimeout)]);
        }
      }
    }
  }

  // A payment that names its parts must repeat the price and add up; one that does not must cover the price.
  predicate PaysFor(row: DealRow, goods: int, feeDue: int, amount: int) {
    if goods > 0 || feeDue > 0 then goods == row.unitPrice && amount == goods + feeDue else amount >= row.unitPrice
  }

  // A payment is accepted by a paid deal, which stays as it is, and by the deal that waits for it from this buyer on this
  // auction and for this price. That deal is then paid and its selection final. A cancelled deal refuses every payment.
  lemma HandleDealInvoicePaidIff(ds: Deals, d: DealId, auction: AuctionId, buyer: CompanyId, goods: int, feeDue: int, amount: int)
    requires DealsInv(ds)
    ensures var r := HandleDealInvoicePaid(ds, d, auction, buyer, goods, feeDue, amount);
            && (r.Ok? <==>
                  && d in ds.deals && auction != NO_ID && buyer != NO_ID
                  && var row := ds.deals[d];
                     || row.status == Paid
                     || (&& row.status == PaymentRequested && row.customer == buyer && row.auction == auction
                         && PaysFor(row, goods, feeDue, amount)))
            && (r.Ok? && ds.deals[d].status == Paid ==> r.value == ds)
            && (r.Ok? && ds.deals[d].status == PaymentRequested ==>
                  var row := ds.deals[d];
                  && auction in ds.selections
                  && r.value == ds.(deals := ds.deals[d := row.(status := Paid)],
                                    selections := ds.selections[auction := ds.selections[auction].(status := Finalized)],
                                    outbox := ds.outbox + [DealPaid(d), WinnerSelectionFinalized(d, auction, buyer, row.unitPrice, goods, feeDue)]))
            && (d in ds.deals && auction != NO_ID && buyer != NO_ID && ds.deals[d].status == Cancelled ==> r == Err(ErrDealCancelledPayment))
  {
    hide DealsInv, Attempts;
    BlankIsNotStored(ds);
    if d in ds.deals {
      StoredDeal(ds, d);
      var row := ds.deals[d];
      SelectionStored(ds, row.auction);
      PriceIsFinal(ds, d);
      if row.status != Cancelled {
        CurrentDeal(ds, d);
        var final := WinnerSelectionFinalized(d, row.auction, row.customer, row.unitPrice, goods, feeDue);
        assert ds.outbox + [DealPaid(d)] + [final] == ds.outbox + [DealPaid(d), final];
      }
    }
  }

  lemma PriceIsFinal(ds: Deals, d: DealId)
    requires DealsInv(ds) && d in ds.deals
    ensures ds.deals[d].auction in ds.selections && ds.deals[d].unitPrice == ds.selections[ds.deals[d].auction].finalPrice
  {
    DealsParts(ds);
    var a := ds.deals[d].auction;
    assert DealOk(ds, d) && SelectionOk(ds, a);
    var attempts := Attempts(ds.outbox, a);
    hide Attempts, DealsInv;
    var k :| 0 <= k < |attempts| && attempts[k] == d;
    assert AttemptFits(ds, ds.selections[a], k, attempts[k]);
  }
}
