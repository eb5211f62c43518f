/**
 The deals tables and, for every deals use case, the state its transaction commits.
 DealsStore.dfy holds the use cases themselves, written the way the program runs them and proved to agree.
 */
module DealsRules {
  import opened Common
  import opened DealDomain
  import opened SelectionDomain

  datatype Projection = Projection(supplier: CompanyId, productNamed: bool, converted: bool)

  // The tables of the deals schema, and the outbox rows whose source context is deals.
  datatype Deals = Deals(
    projections: map<AuctionId, Projection>,
    deals: map<DealId, DealRow>,
    selections: map<AuctionId, SelectionRow>,
    confirmations: map<ConfirmationId, ConfirmationRow>,
    outbox: seq<DealEvent>
  )

  const NO_DEALS := Deals(map[], map[], map[], map[], [])

  function CreateProjection(ds: Deals, auction: AuctionId, supplier: CompanyId, productNamed: bool,
                            startPrice: int, publishedAt: Time): Result<Deals>
  {
    if auction == NO_ID then Err(ErrAuctionIDRequired)
    else if supplier == NO_ID then Err(ErrSupplierIDRequired)
    else if startPrice <= 0 then Err(ErrStartPriceMustBePositive)
    else if publishedAt == ZERO_TIME then Err(ErrPublishedAtRequired)
    else if auction in ds.projections then Ok(ds)
    else Ok(ds.(projections := ds.projections[auction := Projection(supplier, productNamed, false)]))
  }

  // ---------- creating a deal for a candidate ----------

  function NewAttempt(sel: SelectionRow, winner: CompanyId, newDeal: DealId): Result<Change> {
    var change :- CreateFromSelection(newDeal, sel.auction, sel.supplier, sel.productNamed, winner, sel.finalPrice, sel.wonAt);
    match change.row.Validate()
    case Some(e) => Err(e)
    case None => Ok(change)
  }

  // trading.AuctionWon: remember the candidates and open the first deal.
  function CreateDealSelection(ds: Deals, auction: AuctionId, winners: seq<CompanyId>, finalPrice: int, wonAt: Time,
                               newDeal: DealId): Result<Deals>
  {
    if auction == NO_ID then Err(ErrAuctionIDRequired)
    else if winners == [] then Err(ErrWinnerCandidatesRequired)
    else if finalPrice <= 0 then Err(ErrFinalPriceRequired)
    else if wonAt == ZERO_TIME then Err(ErrWonAtRequired)
    else if auction !in ds.projections then Err(ErrProjectionNotFound)
    else
      var projection := ds.projections[auction];
      var sel := if auction in ds.selections then ds.selections[auction]
                 else NewWinnerSelection(auction, winners, finalPrice, wonAt, projection.supplier, projection.productNamed);
      if sel.deal != NO_ID then Ok(ds)
      else match sel.CurrentCandidate() {
        case None => Err(ErrNoAvailableWinner) // the exhausted mark saved just before is rolled back
        case Some(current) =>
          var change :- NewAttempt(sel, current, newDeal);
          Ok(ds.(deals := ds.deals[newDeal := change.row],
                 projections := ds.projections[auction := projection.(converted := true)],
                 selections := ds.selections[sel.auction := sel.(deal := newDeal)],
                 outbox := ds.outbox + change.events))
      }
  }

  // Move the selection on and open a deal for the next candidate, if there is one.
  // `earlier` are events of the same transaction that go out first.
  function Fallback(ds: Deals, sel: SelectionRow, auction: AuctionId, newDeal: DealId, earlier: seq<DealEvent>): Result<Deals> {
    var (advanced, next) := sel.Advance();
    if !advanced then
      Ok(ds.(selections := ds.selections[sel.auction := next],
             outbox := ds.outbox + earlier + [WinnerSelectionFailed(auction)]))
    else match next.CurrentCandidate() {
      case None =>
        Ok(ds.(selections := ds.selections[sel.auction := next.MarkExhausted()],
               outbox := ds.outbox + earlier + [WinnerSelectionFailed(auction)]))
      case Some(candidate) =>
        var change :- NewAttempt(next, candidate, newDeal);
        Ok(ds.(deals := ds.deals[newDeal := change.row],
               selections := ds.selections[sel.auction := next.(deal := newDeal)],
               outbox := ds.outbox + earlier + change.events
                         + [NextWinnerSelected(next.auction, candidate, if next.currentIndex >= 0 then next.currentIndex + 1 else 0, newDeal)]))
    }
  }

  // deals.DealCancelled, and the operator's decline command. Blank arguments are resolved from the other one.
  function HandleDealDeclined(ds: Deals, auction: AuctionId, deal: DealId, newDeal: DealId): Result<Deals> {
    if auction == NO_ID && deal != NO_ID && deal !in ds.deals then Err(ErrDealNotFound)
    else
      var resolved := if auction == NO_ID && deal != NO_ID then ds.deals[deal].auction else auction;
      if resolved == NO_ID then Err(ErrAuctionIDRequired)
      else if resolved !in ds.selections then Err(ErrSelectionNotFound)
      else
        var sel := ds.selections[resolved];
        var effective := if deal == NO_ID then sel.deal else deal;
        if sel.status == Exhausted then Err(ErrNoAvailableWinner)
        else if effective != NO_ID && sel.deal != NO_ID && sel.deal != effective then Err(ErrStaleWinnerSelection)
        else
          var reopened :- ReopenForDecline(ds, sel);
          match reopened.CurrentCandidate()
          case None => Err(ErrNoAvailableWinner)
          case Some(current) =>
            if reopened.deal != NO_ID && reopened.deal !in ds.deals then Err(ErrDealNotFound)
            else if reopened.deal != NO_ID && ds.deals[reopened.deal].status != Cancelled then Err(ErrDealNotCancelledForFallback)
            else if reopened.deal != NO_ID && ds.deals[reopened.deal].customer != current then Err(ErrWrongSelectedCandidate)
            else Fallback(ds, reopened, resolved, newDeal, [])
  }

  // A confirmed selection whose deal was cancelled is opened again before it advances.
  function ReopenForDecline(ds: Deals, sel: SelectionRow): Result<SelectionRow> {
    if sel.status != ConfirmedPendingPayment then Ok(sel)
    else if sel.deal == NO_ID then Err(ErrWinnerSelectionDealMismatch)
    else if sel.deal !in ds.deals then Err(ErrDealNotFound)
    else if ds.deals[sel.deal].status != Cancelled then Err(ErrWinnerFallbackOnlyWhileActive)
    else if sel.CurrentCandidate() != Some(ds.deals[sel.deal].customer) then Err(ErrWrongSelectedCandidate)
    else sel.ReopenAfterPaymentTimeout(sel.deal)
  }

  // ---------- answers from billing ----------

  // billing.DealInvoiceExpired: cancel, reopen, advance and open the next deal in one transaction.
  function HandleDealInvoiceExpired(ds: Deals, deal: DealId, auction: AuctionId, buyer: CompanyId, newDeal: DealId): Result<Deals>
  {
    if deal == NO_ID then Err(ErrDealIDRequired)
    else if auction == NO_ID then Err(ErrAuctionIDRequired)
    else if buyer == NO_ID then Err(ErrCustomerIDRequired)
    else if deal !in ds.deals then Err(ErrDealNotFound)
    else
      var row := ds.deals[deal];
      if row.status == Paid || row.status == Cancelled then Ok(ds)
      else if row.auction != auction || row.customer != buyer then Err(ErrStaleWinnerSelection)
      else if !PostConfirmPrePaid(row.status) then Err(ErrCannotCancelForPaymentTimeout)
      else if auction !in ds.selections then Err(ErrSelectionNotFound)
      else
        var sel := ds.selections[auction];
        if sel.status != ConfirmedPendingPayment then Ok(ds)
        else if sel.deal != row.id then Ok(ds)
        else
          var cancelled :- row.Cancel(PaymentTimeout, System);
          var reopened :- sel.ReopenAfterPaymentTimeout(row.id);
          Fallback(ds.(deals := ds.deals[deal := cancelled.row]), reopened, auction, newDeal, cancelled.events)
  }

  function ValidateDealInvoicePaidPayload(row: DealRow, goods: int, feeDue: int, amount: int): Option<Error> {
    var total := row.Total();
    if goods > 0 || feeDue > 0 then
      if goods != total then Some(ErrDealInvoicePaidInvariant)
      else if amount != goods + feeDue then Some(ErrDealInvoicePaidInvariant)
      else None
    else if amount < total then Some(ErrDealInvoicePaidInvariant)
    else None
  }

  // billing.DealInvoicePaid: the deal is paid and its auction's selection is final.
  function HandleDealInvoicePaid(ds: Deals, deal: DealId, auction: AuctionId, buyer: CompanyId, goods: int, feeDue: int, amount: int): Result<Deals>
  {
    if deal == NO_ID then Err(ErrDealIDRequired)
    else if auction == NO_ID then Err(ErrAuctionIDRequired)
    else if buyer == NO_ID then Err(ErrCustomerIDRequired)
    else if deal !in ds.deals then Err(ErrDealNotFound)
    else
      var row := ds.deals[deal];
      if row.status == Cancelled then Err(ErrDealCancelledPayment)
      else if row.status == Paid then Ok(ds)
      else if row.customer != buyer then Err(ErrNotDealParticipant)
      else if row.auction != auction then Err(ErrStaleWinnerSelection)
      else
        var invalid := ValidateDealInvoicePaidPayload(row, goods, feeDue, amount);
        if invalid.Some? then Err(invalid.value)
        else if row.status != PaymentRequested then Err(ErrCannotMarkAsPaid)
        else
          var paid :- row.MarkAsPaid();
          if auction !in ds.selections then Err(ErrSelectionNotFound)
          else
            var sel := ds.selections[auction];
            var ds1 := ds.(deals := ds.deals[deal := paid.row]);
            if sel.deal != row.id then Err(ErrWinnerSelectionDealMismatch)
            else if sel.status == Finalized then Ok(ds1.(outbox := ds.outbox + paid.events))
            else if sel.status != ConfirmedPendingPayment then Err(ErrWinnerSelectionNotAwaitingPayment)
            else
              var final :- sel.MarkFinalized(row.id);
              match final.CurrentCandidate()
              case None => Err(ErrNoAvailableWinnerCandidate)
              case Some(candidate) =>
                Ok(ds1.(selections := ds.selections[sel.auction := final],
                        outbox := ds.outbox + paid.events
                                  + [WinnerSelectionFinalized(row.id, auction, candidate, sel.finalPrice, goods, feeDue)]))
  }

  // ---------- commands on one deal ----------

  function ApplyChange(ds: Deals, deal: DealId, r: Result<Change>): Result<Deals> {
    var change :- r;
    Ok(ds.(deals := ds.deals[deal := change.row], outbox := ds.outbox + change.events))
  }

  function Load(ds: Deals, deal: DealId): Result<DealRow> {
    if deal == NO_ID then Err(ErrDealIDRequired)
    else if deal !in ds.deals then Err(ErrDealNotFound)
    else Ok(ds.deals[deal])
  }

  // Stands for the number the program makes up when none is given; it is never blank.
  const GENERATED_CONTRACT_NUMBER: nat := 1

  function PrepareContract(ds: Deals, deal: DealId, number: nat, now: Time): Result<Deals> {
    var row :- Load(ds, deal);
    ApplyChange(ds, deal, row.PrepareContract(if number == NO_ID then GENERATED_CONTRACT_NUMBER else number, now))
  }

  function SignContract(ds: Deals, deal: DealId, signedBy: UserId, signatureRef: nat, now: Time): Result<Deals> {
    if signedBy == NO_ID then Err(ErrSignedByRequired)
    else if signatureRef == NO_ID then Err(ErrSignatureRefRequired)
    else
      var row :- Load(ds, deal);
      ApplyChange(ds, deal, row.SignContract(now))
  }

  function RequestPayment(ds: Deals, deal: DealId, dueAt: Time): Result<Deals> {
    var row :- Load(ds, deal);
    if row.kind == AuctionDeal && row.auction != NO_ID then
      if row.auction !in ds.selections then Err(ErrWinnerSelectionMissingForAuctionDeal)
      else
        var sel := ds.selections[row.auction];
        if sel.deal != row.id then Err(ErrWinnerSelectionDealMismatch)
        else if sel.status != ConfirmedPendingPayment then Err(ErrWinnerSelectionNotAwaitingPayment)
        else ApplyChange(ds, deal, row.RequestPayment(dueAt))
    else ApplyChange(ds, deal, row.RequestPayment(dueAt))
  }

  function RequestShipment(ds: Deals, deal: DealId): Result<Deals> {
    var row :- Load(ds, deal);
    ApplyChange(ds, deal, row.RequestShipment())
  }

  function CancelDeal(ds: Deals, deal: DealId, reason: CancelReason, actor: Option<Actor>): Result<Deals> {
    if reason == NoReason then Err(ErrReasonRequired)
    else if actor.None? then Err(ErrCancelledByRequired)
    else
      var row :- Load(ds, deal);
      ApplyChange(ds, deal, row.Cancel(reason, actor.value))
  }

  // ---------- confirmation requests ----------

  predicate HasPendingConfirmation(ds: Deals, deal: DealId, stage: Stage) {
    exists c | c in ds.confirmations ::
      ds.confirmations[c].deal == deal && ds.confirmations[c].stage == stage && ds.confirmations[c].status == AwaitingApproval
  }

  function RequestDealConfirmation(ds: Deals, deal: DealId, newConfirmation: ConfirmationId, stage: Stage, company: CompanyId,
                                   user: UserId, comment: CancelReason, expiresAt: Option<Time>): Result<Deals>
  {
    var row :- Load(ds, deal);
    if HasPendingConfirmation(ds, deal, stage) then Err(ErrConfirmationAlreadyPending)
    else
      var c :- row.RequestConfirmation(newConfirmation, stage, company, user, comment, expiresAt);
      Ok(ds.(confirmations := ds.confirmations[newConfirmation := c],
             outbox := ds.outbox + [ConfirmationRequested(newConfirmation, deal)]))
  }

  function LoadConfirmation(ds: Deals, deal: DealId, confirmation: ConfirmationId): Result<ConfirmationRow> {
    if deal == NO_ID then Err(ErrDealIDRequired)
    else if confirmation == NO_ID then Err(ErrConfirmationIDRequired)
    else if deal !in ds.deals then Err(ErrDealNotFound)
    else if confirmation !in ds.confirmations then Err(ErrConfirmationNotFound)
    else if ds.confirmations[confirmation].deal != ds.deals[deal].id then Err(ErrConfirmationDealMismatch)
    else Ok(ds.confirmations[confirmation])
  }

  // When the deal has just been confirmed, its selection starts waiting for payment.
  function ConfirmCurrentWinner(ds: Deals, row: DealRow): Result<Deals> {
    if row.kind != AuctionDeal || row.auction == NO_ID || row.status != Confirmed then Ok(ds)
    else if row.auction !in ds.selections then Err(ErrWinnerSelectionMissingForAuctionDeal)
    else
      var sel := ds.selections[row.auction];
      if sel.CurrentCandidate() != Some(row.customer) then Err(ErrWrongSelectedCandidate)
      else
        var confirmed :- sel.MarkCurrentConfirmed(row.id);
        if row.confirmedAt.None? then Err(ErrCannotConfirmDeal)
        else
          Ok(ds.(selections := ds.selections[sel.auction := confirmed],
                 outbox := ds.outbox + [WinnerConfirmed(row.id, row.auction, row.customer, row.unitPrice)]))
  }

  function ApproveDealConfirmation(ds: Deals, deal: DealId, confirmation: ConfirmationId, company: CompanyId, user: UserId, now: Time): Result<Deals>
  {
    var c :- LoadConfirmation(ds, deal, confirmation);
    var (err, approved) := c.Answer(company, user, now, Approved);
    if err.Some? then Err(err.value)
    else
      var change :- ds.deals[deal].ApplyApprovedConfirmation(approved, now);
      ConfirmCurrentWinner(
        ds.(confirmations := ds.confirmations[confirmation := approved],
            deals := ds.deals[deal := change.row],
            outbox := ds.outbox + [ConfirmationApproved(confirmation, deal)] + change.events),
        change.row)
  }

  function RejectDealConfirmation(ds: Deals, deal: DealId, confirmation: ConfirmationId, company: CompanyId, user: UserId, now: Time): Result<Deals>
  {
    var c :- LoadConfirmation(ds, deal, confirmation);
    var (err, rejected) := c.Answer(company, user, now, Rejected);
    if err.Some? then Err(err.value)
    else
      Ok(ds.(confirmations := ds.confirmations[confirmation := rejected],
             outbox := ds.outbox + [ConfirmationRejected(confirmation, deal)]))
  }
}
