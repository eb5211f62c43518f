/**
 The lifecycles of the domain objects, each as one table: from which statuses a step is possible, for any object whatever,
 and where it leads. The tables name no guard of the objects themselves.
 */
module Lifecycles {
  import opened Common
  import opened Wallet
  import opened DealDomain
  import opened SelectionDomain
  import opened AuctionDomain

  // Whether an operation succeeds exactly under a condition, and then leaves the given row.
  predicate Becomes<T(==)>(r: Result<T>, possible: bool, after: T) {
    if possible then r == Ok(after) else r.Err?
  }

  // The same for an operation that also emits events.
  predicate Turns(r: Result<Change>, possible: bool, after: DealRow, events: seq<DealEvent>) {
    if possible then r == Ok(Change(after, events)) else r.Err?
  }

  // ---------- deals ----------

  lemma DealLifecycle(row: DealRow, number: nat, now: Time, dueAt: Time)
    ensures Turns(row.Confirm(now), row.status == Pending, row.(status := Confirmed, confirmedAt := Some(now)), [DealConfirmed(row.id)])
    ensures Turns(row.PrepareContract(number, now),
                  (row.status == Pending || row.status == Confirmed) && row.contract.NoContract? && number != 0,
                  row.(status := ContractPrepared, contract := Contract(number, now, None)), [ContractPreparedEvent(row.id)])
    ensures var draft := row.contract.Contract? && row.contract.signedAt.None?;
            Turns(row.SignContract(now), row.status == ContractPrepared && draft,
                  if draft then row.(status := ContractSigned, contract := Contract(row.contract.number, row.contract.preparedAt, Some(now)))
                  else row,
                  [ContractSignedEvent(row.id)])
    ensures Turns(row.RequestPayment(dueAt), row.status == ContractSigned && row.contract.Contract? && row.contract.signedAt.Some?,
                  row.(status := PaymentRequested),
                  [PaymentRequestedEvent(row.id, row.auction, row.customer, row.supplier, row.quantity * row.unitPrice, dueAt)])
    ensures Turns(row.MarkAsPaid(), row.status == PaymentRequested, row.(status := Paid), [DealPaid(row.id)])
    ensures Turns(row.RequestShipment(), row.status == Paid, row.(status := ShipmentRequested), [ShipmentRequestedEvent(row.id)])
    ensures Turns(row.MarkAsShipped(), row.status == ShipmentRequested, row.(status := Shipped), [DealShipped(row.id)])
    ensures Turns(row.Complete(), row.status == Shipped, row.(status := Completed), [DealCompleted(row.id)])
  {
  }

  // A deal is created for a named winner, seller and auction at a positive price, and named goods; it waits for its
  // confirmation.
  lemma DealIsCreated(id: DealId, auction: AuctionId, supplier: CompanyId, productNamed: bool, winner: CompanyId, finalPrice: int, wonAt: Time)
    ensures var r := CreateFromSelection(id, auction, supplier, productNamed, winner, finalPrice, wonAt);
            var row := DealRow(id, winner, supplier, auction, 1, finalPrice, AuctionDeal, productNamed, wonAt, Pending, None, NoContract);
            && Turns(r, auction != 0 && supplier != 0 && winner != 0 && finalPrice > 0 && wonAt != 0, row,
                     [DealCreated(id, auction, winner, finalPrice)])
            && (row.Validate().None? <==>
                  id != 0 && winner != 0 && supplier != 0 && auction != 0 && finalPrice > 0 && productNamed && wonAt != 0)
  {
  }

  // An approved request is applied to its own deal, while the deal's status allows the stage.
  lemma ApprovalApplies(row: DealRow, c: ConfirmationRow, now: Time)
    ensures var r := row.ApplyApprovedConfirmation(c, now);
            && (r.Ok? ==> c.deal == row.id && c.status == Approved)
            && (c.deal == row.id && c.status == Approved ==>
                  match c.stage
                  case StageConfirmed =>
                    Turns(r, row.status == Pending, row.(status := Confirmed, confirmedAt := Some(now)), [DealConfirmed(row.id)])
                  case StagePaid => r.Err?
                  case StageShipped => Turns(r, row.status == ShipmentRequested, row.(status := Shipped), [DealShipped(row.id)])
                  case StageCompleted => Turns(r, row.status == Shipped, row.(status := Completed), [DealCompleted(row.id)])
                  case StageCancelled => r.Ok? ==> r.value.row == row.(status := Cancelled))
  {
  }

  // ---------- confirmation requests ----------

  // A request is answered once, by its addressee, until it expires; a late answer marks it expired and is refused.
  lemma RequestLifecycle(c: ConfirmationRow, company: CompanyId, user: UserId, now: Time, answer: ConfirmationStatus)
    ensures var (err, after) := c.Answer(company, user, now, answer);
            var addressed := c.status == AwaitingApproval && company != 0 && user != 0 && company == c.counterparty && company != c.requestedBy;
            var late := c.expiresAt.Some? && c.expiresAt.value < now;
            && (err.None? <==> addressed && !late)
            && after == if !addressed then c else if late then c.(status := Expired) else c.(status := answer)
  {
  }

  // A request goes from a named user of one party to the other party, about a stage the deal's status allows.
  lemma RequestIsFiled(row: DealRow, c: ConfirmationId, stage: Stage, company: CompanyId, user: UserId, comment: CancelReason, expiresAt: Option<Time>)
    ensures var r := row.RequestConfirmation(c, stage, company, user, comment, expiresAt);
            var other := if company == row.customer then row.supplier else row.customer;
            Becomes(r,
                    && (company == row.customer || company == row.supplier) && company != 0 && other != 0 && company != other
                    && c != 0 && row.id != 0 && user != 0
                    && (|| (stage == StageConfirmed && row.status == Pending)
                        || (stage == StageShipped && row.status == ShipmentRequested)
                        || (stage == StageCompleted && row.status == Shipped)
                        || (stage == StageCancelled && row.status != Completed && row.status != Cancelled)),
                    ConfirmationRow(c, row.id, stage, user, company, other, comment, expiresAt, AwaitingApproval))
  {
  }

  // ---------- selections ----------

  lemma SelectionLifecycle(sel: SelectionRow, d: DealId)
    ensures var (ok, after) := sel.Advance();
            && (ok <==> sel.status == Active && sel.currentIndex + 1 < |sel.candidates|)
            && after == if ok then sel.(currentIndex := sel.currentIndex + 1, deal := 0)
                        else if sel.status == Active then sel.(status := Exhausted, deal := 0) else sel
    ensures var named := 0 <= sel.currentIndex < |sel.candidates| && sel.candidates[sel.currentIndex] != 0;
            && Becomes(sel.MarkCurrentConfirmed(d), d != 0 && sel.status == Active && (sel.deal == 0 || sel.deal == d) && named,
                       sel.(status := ConfirmedPendingPayment, deal := d))
            && Becomes(sel.ReopenAfterPaymentTimeout(d), d != 0 && sel.status == ConfirmedPendingPayment && sel.deal == d,
                       sel.(status := Active, deal := 0))
            && Becomes(sel.MarkFinalized(d),
                       d != 0 && sel.deal == d && (sel.status == Finalized || (sel.status == ConfirmedPendingPayment && named)),
                       sel.(status := Finalized))
  {
  }

  // ---------- auctions ----------

  lemma AuctionLifecycle(row: AuctionRow)
    ensures Becomes(row.Publish(), row.state == Draft, AuctionChange(row.(state := Published), [AuctionPublished(row.id)]))
    ensures Becomes(row.CancelAsSellerOrDraft(), row.state == Draft || (row.state == Published && row.leader == 0),
                    AuctionChange(row.(state := AuctionDropped), [AuctionCancelled(row.id)]))
    ensures Becomes(row.CancelAsAdmin(), row.state == Draft || row.state == Published,
                    AuctionChange(row.(state := AuctionDropped), [AuctionCancelled(row.id)]))
    ensures Becomes(row.Rehydrated(),
                    && row.id != 0 && row.lot != 0 && row.startsAt != 0 && row.endsAt != 0 && row.startsAt < row.endsAt
                    && row.minBidStep > 0 && row.startPrice >= 0,
                    row)
  {
  }

  lemma AuctionIsCreated(id: AuctionId, lot: LotId, startsAt: Time, endsAt: Time, startPrice: int, minBidStep: int)
    ensures Becomes(NewAuctionWithPricing(id, lot, startsAt, endsAt, startPrice, minBidStep),
                    id != 0 && lot != 0 && startsAt != 0 && endsAt != 0 && startsAt < endsAt && startPrice >= 0 && minBidStep > 0,
                    AuctionRow(id, lot, Draft, startsAt, endsAt, startPrice, startPrice, minBidStep, 0))
  {
  }

  // ---------- deposits, top-ups, invoices, payouts ----------

  lemma PapersAreCreated(k: DepositKey, amount: int, d: DealId, a: AuctionId, buyer: CompanyId, seller: CompanyId, feeDue: int, dueAt: Time, now: Time)
    ensures Becomes(NewAuctionDeposit(k, amount), k.auction != 0 && k.company != 0 && amount > 0,
                    DepositRow(if amount > 0 then amount else 0, HELD))
    ensures Becomes(NewDealInvoice(d, a, buyer, seller, amount, feeDue, dueAt, now),
                    d != 0 && buyer != 0 && seller != 0 && buyer != seller && amount > 0 && feeDue >= 0 && now <= dueAt,
                    InvoiceRow(d, a, buyer, seller, amount, feeDue, amount + feeDue, InvoicePending, dueAt))
    ensures Becomes(NewSellerPayout(d, a, seller, buyer, amount),
                    d != 0 && a != 0 && seller != 0 && buyer != 0 && seller != buyer && amount > 0,
                    PayoutRow(d, a, seller, buyer, amount, PayoutPending))
  {
  }

  // An invoice is paid for exactly its total, while its payment is pending; what is paid stays paid.
  lemma InvoiceLifecycle(i: InvoiceRow, amount: int)
    ensures Becomes(i.AttachProvider(), i.status == InvoicePending, i.(status := InvoicePaymentPending))
    ensures Becomes(i.MarkPaid(amount), i.status == InvoicePaymentPending && amount == i.total, i.(status := InvoicePaid))
    ensures Becomes(i.MarkPaidIdempotent(amount), (i.status == InvoicePaymentPending || i.status == InvoicePaid) && amount == i.total,
                    i.(status := InvoicePaid))
    ensures Becomes(i.MarkExpired(), i.status == InvoicePaymentPending || i.status == InvoicePaid || i.status == InvoiceExpired,
                    if i.status == InvoicePaid then i else i.(status := InvoiceExpired))
  {
  }

  lemma PayoutLifecycle(p: PayoutRow)
    ensures Becomes(p.MarkReady(), p.status == PayoutPending || p.status == PayoutReady || p.status == PayoutPaid,
                    if p.status == PayoutPaid then p else p.(status := PayoutReady))
    ensures Becomes(p.MarkFailed(), p.status == PayoutPending || p.status == PayoutReady || p.status == PayoutFailed, p.(status := PayoutFailed))
    ensures Becomes(p.MarkPaid(), p.status == PayoutReady || p.status == PayoutPaid, p.(status := PayoutPaid))
  {
  }

  lemma TopUpLifecycle(t: TopUpRow)
    ensures Becomes(t.MarkSucceeded(), t.status == TopUpPending, t.(status := TopUpSucceeded))
  {
  }
}
