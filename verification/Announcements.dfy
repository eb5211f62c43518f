/**
 No event is lost: whatever a subscriber has to hear of was announced when it happened. This is the converse of the
 invariants that say that every announcement is true.
 */
module Announcements {
  import opened Common
  import opened Wallet
  import opened BillingRules
  import opened BillingInvariants
  import opened DealDomain
  import opened DealsRules
  import opened DealsInvariants
  import opened DealsOutcomes
  import opened Settlement
  import opened SettlementInvariants
  import opened SettlementRuns
  import Money
  import Ledger
  import SelectionDomain
  import SettlementSteps
  import DealsProgress
  import TradingRules
  import SettlementTheorems
  import DealsAnswers

  predicate PaymentAnnounced(ds: Deals, d: DealId) {
    exists e | e in ds.outbox :: e.PaymentRequestedEvent? && e.deal == d
  }

  predicate FinalizationAnnounced(ds: Deals, d: DealId) {
    exists e | e in ds.outbox :: e.WinnerSelectionFinalized? && e.deal == d
  }

  predicate ReceiptAnnounced(b: Billing, d: DealId) {
    exists e | e in b.outbox :: e.DealInvoicePaid? && e.deal == d
  }

  ghost predicate DealsAnnounced(ds: Deals) {
    && (forall d | d in ds.deals && ds.deals[d].status == PaymentRequested :: PaymentAnnounced(ds, d))
    && (forall d | FinalizedOn(ds, d) :: FinalizationAnnounced(ds, d))
  }

  ghost predicate ReceiptsAnnounced(b: Billing) {
    forall d | d in b.invoices && b.invoices[d].status == InvoicePaid :: ReceiptAnnounced(b, d)
  }

  // ---------- most steps ask for no payment, finalize nothing and confirm nobody ----------

  predicate AsksNoPayment(ds: Deals, ds': Deals) {
    forall d | d in ds'.deals && ds'.deals[d].status == PaymentRequested :: d in ds.deals && ds.deals[d].status == PaymentRequested
  }

  predicate FinalizesNone(ds: Deals, ds': Deals) {
    forall a | a in ds'.selections && ds'.selections[a].status == SelectionDomain.Finalized :: a in ds.selections && ds'.selections[a] == ds.selections[a]
  }

  predicate ConfirmsNone(ds: Deals, ds': Deals) {
    forall d | d in ds.deals :: d in ds'.deals && ds'.deals[d].confirmedAt == ds.deals[d].confirmedAt
  }

  predicate Quiet(ds: Deals, ds': Deals) {
    AsksNoPayment(ds, ds') && FinalizesNone(ds, ds') && ConfirmsNone(ds, ds')
  }

  lemma QuietItself(ds: Deals)
    ensures Quiet(ds, ds)
  {
  }

  lemma FellBackQuiet(ds: Deals, ds': Deals, a: AuctionId, newDeal: DealId)
    requires a in ds.selections && 0 <= ds.selections[a].currentIndex && FellBack(ds, ds', a, newDeal) && newDeal !in ds.deals
    ensures Quiet(ds, ds')
  {
  }

  lemma DeclineQuiet(ds: Deals, a: AuctionId, d: DealId, newDeal: DealId)
    requires DealsInv(ds) && newDeal != NO_ID && newDeal !in ds.deals && HandleDealDeclined(ds, a, d, newDeal).Ok?
    ensures Quiet(ds, HandleDealDeclined(ds, a, d, newDeal).value)
  {
    hide DealsInv, FellBack, Quiet, Continues;
    HandleDealDeclinedOutcome(ds, a, d, newDeal);
    var auction := if a == NO_ID && d in ds.deals then ds.deals[d].auction else a;
    hide HandleDealDeclined;
    SettlementTheorems.SelectionShaped(ds, auction);
    FellBackQuiet(ds, HandleDealDeclined(ds, a, d, newDeal).value, auction, newDeal);
  }

  lemma ExpiryQuiet(ds: Deals, d: DealId, a: AuctionId, buyer: CompanyId, newDeal: DealId)
    requires DealsInv(ds) && newDeal != NO_ID && newDeal !in ds.deals && HandleDealInvoiceExpired(ds, d, a, buyer, newDeal).Ok?
    ensures Quiet(ds, HandleDealInvoiceExpired(ds, d, a, buyer, newDeal).value)
  {
    hide DealsInv, FellBack, Fallback, CancelledBy, HandleDealInvoiceExpired, Quiet;
    HandleDealInvoiceExpiredCases(ds, d, a, buyer, newDeal);
    DealKeyed(ds, d);
    QuietItself(ds);
    if HandleDealInvoiceExpired(ds, d, a, buyer, newDeal) != Ok(ds) {
      SettlementTheorems.SelectionShaped(ds, a);
      FallbackFellBack(TimedOut(ds, d), a, newDeal);
      FellBackQuiet(TimedOut(ds, d), HandleDealInvoiceExpired(ds, d, a, buyer, newDeal).value, a, newDeal);
      TimeoutQuiet(ds, d);
      QuietTransitive(ds, TimedOut(ds, d), HandleDealInvoiceExpired(ds, d, a, buyer, newDeal).value);
    }
  }

  lemma TimeoutQuiet(ds: Deals, d: DealId)
    requires d in ds.deals
    ensures Quiet(ds, TimedOut(ds, d))
  {
  }

  lemma QuietTransitive(ds0: Deals, ds1: Deals, ds2: Deals)
    requires Quiet(ds0, ds1) && Quiet(ds1, ds2)
    ensures Quiet(ds0, ds2)
  {
  }

  lemma OpeningQuiet(ds: Deals, a: AuctionId, winners: seq<CompanyId>, finalPrice: int, wonAt: Time, newDeal: DealId)
    requires DealsInv(ds) && newDeal !in ds.deals && CreateDealSelection(ds, a, winners, finalPrice, wonAt, newDeal).Ok?
    ensures Quiet(ds, CreateDealSelection(ds, a, winners, finalPrice, wonAt, newDeal).value)
  {
    hide DealsInv;
    if a in ds.selections {
      SettlementTheorems.SelectionShaped(ds, a);
    }
  }

  lemma CancellationQuiet(ds: Deals, ds': Deals, d: DealId, reason: CancelReason, actor: Actor, earlier: seq<DealEvent>)
    requires CancelledBy(ds, ds', d, reason, actor, earlier)
    ensures Quiet(ds, ds')
  {
    hide DealRow.Cancel;
  }

  // An approval may confirm its own deal, in answer to a waiting request that has not expired.
  lemma ApprovalConfirms(ds: Deals, q: DealId, c: ConfirmationId, company: CompanyId, user: UserId, now: Time)
    requires DealsInv(ds) && ApproveDealConfirmation(ds, q, c, company, user, now).Ok?
    ensures var ds' := ApproveDealConfirmation(ds, q, c, company, user, now).value;
            && AsksNoPayment(ds, ds') && FinalizesNone(ds, ds')
            && c in ds.confirmations
            && (Quiet(ds, ds')
                || (&& ds.confirmations[c].status == AwaitingApproval && ds.confirmations[c].deal == q
                    && ds.confirmations[c].stage == StageConfirmed && !ds.confirmations[c].ExpiredAt(now)
                    && q in ds.deals && ds.deals[q].status == Pending
                    && (forall d | d in ds.deals && d != q :: d in ds'.deals && ds'.deals[d].confirmedAt == ds.deals[d].confirmedAt)))
  {
    hide DealsInv, DealRow.Cancel, CancelledBy;
    ApproveCases(ds, q, c, company, user, now);
    hide ApproveDealConfirmation;
    var request := ds.confirmations[c];
    if request.stage == StageCancelled {
      CancellationQuiet(ds, ApproveDealConfirmation(ds, q, c, company, user, now).value, q,
                        if request.comment == NoReason then DEFAULT_CANCEL_REASON else request.comment,
                        Party(request.requestedBy), [ConfirmationApproved(c, q)]);
    }
  }

  lemma RowQuiet(ds: Deals, ds': Deals, d: DealId, row: DealRow, events: seq<DealEvent>)
    requires d in ds.deals && DealsAnswers.Rewrites(ds, ds', d, row, events)
    requires row.confirmedAt == ds.deals[d].confirmedAt && row.status != PaymentRequested
    ensures Quiet(ds, ds')
  {
  }

  lemma PaperworkQuiet(ds: Deals, ds': Deals)
    requires ds'.deals == ds.deals && ds'.selections == ds.selections
    ensures Quiet(ds, ds')
  {
  }

  lemma CommandQuiet(ds: Deals, s: DealsStep)
    requires DealsInv(ds) && ApplyCommand(ds, s).Ok? && !s.ApproveStep? && !s.RequestPaymentStep?
    requires s.DeclineStep? ==> s.newDeal != NO_ID && s.newDeal !in ds.deals
    ensures Quiet(ds, ApplyCommand(ds, s).value)
  {
    hide DealsInv, Quiet, HandleDealDeclined, PrepareContract, SignContract, RequestShipment, CancelDeal, HasPendingConfirmation,
         DealRow.RequestConfirmation;
    var ds' := ApplyCommand(ds, s).value;
    match s
    case DeclineStep(a, d, newDeal) => DeclineQuiet(ds, a, d, newDeal);
    case PrepareContractStep(d, number, now) =>
      DealsAnswers.PrepareContractIff(ds, d, number, now);
      RowQuiet(ds, ds', d, ds'.deals[d], [ContractPreparedEvent(d)]);
    case SignContractStep(d, signedBy, signatureRef, now) =>
      DealsAnswers.SignContractIff(ds, d, signedBy, signatureRef, now);
      RowQuiet(ds, ds', d, ds'.deals[d], [ContractSignedEvent(d)]);
    case RequestShipmentStep(d) =>
      DealsAnswers.RequestShipmentIff(ds, d);
      RowQuiet(ds, ds', d, ds'.deals[d], [ShipmentRequestedEvent(d)]);
    case CancelStep(d, reason, actor) => CancelQuiet(ds, d, reason, actor);
    case _ => PaperworkQuiet(ds, ds');
  }

  lemma CancelQuiet(ds: Deals, d: DealId, reason: CancelReason, actor: Option<Actor>)
    requires DealsInv(ds) && CancelDeal(ds, d, reason, actor).Ok?
    ensures Quiet(ds, CancelDeal(ds, d, reason, actor).value)
  {
    hide DealsInv, DealsAnswers.Forfeits, DealsAnswers.Recorded, DealRow.Cancel;
    DealsAnswers.CancelDealIff(ds, d, reason, actor);
    hide CancelDeal;
  }

  lemma DeliveryQuiet(w: World, v: Delivery)
    requires WorldInv(w) && Enabled(w, Deliver(v)) && ApplyDelivery(w, v).Ok? && !v.PaidInvoice?
    ensures Quiet(w.deals, ApplyDelivery(w, v).value.deals)
  {
    hide Quiet, DealsInv, WorldInv, CreateDealSelection, HandleDealDeclined, HandleDealInvoiceExpired,
         ReleaseAuctionDepositsExceptCandidates, CaptureAuctionDeposit, CreateDealInvoice, FinalizeAuction;
    WorldParts(w);
    QuietItself(w.deals);
    match v
    case OpenSelection(won, newDeal) =>
      OpeningQuiet(w.deals, won.event.auction, won.event.winners, won.event.finalPrice, won.at, newDeal);
    case CancelledDeal(e, newDeal) =>
      if e.reason != PaymentTimeout && HandleDealDeclined(w.deals, NO_ID, e.deal, newDeal).Ok? {
        DeclineQuiet(w.deals, NO_ID, e.deal, newDeal);
      }
    case ExpiredInvoice(e, newDeal) => ExpiryQuiet(w.deals, e.deal, e.auction, e.buyer, newDeal);
    case _ =>
  }

  // ---------- the three steps that are not quiet ----------

  // The selection's current deal is stored.
  lemma SelectedIsStored(ds: Deals, d: DealId)
    requires DealsInv(ds) && exists a :: a in ds.selections && ds.selections[a].status == SelectionDomain.Finalized && ds.selections[a].deal == d
    ensures d in ds.deals
  {
    var a :| a in ds.selections && ds.selections[a].status == SelectionDomain.Finalized && ds.selections[a].deal == d;
    SelectionTrue(ds, a);
    hide Attempts;
    assert AttemptFits(ds, ds.selections[a], ds.selections[a].currentIndex, Attempts(ds.outbox, a)[ds.selections[a].currentIndex]);
  }

  lemma FinalizesNoneMeans(ds: Deals, ds': Deals, d: DealId)
    requires DealsInv(ds) && DealsAdvances(ds, ds') && FinalizesNone(ds, ds') && FinalizedOn(ds', d)
    ensures FinalizedOn(ds, d)
  {
    hide DealsInv;
    var a := ds'.deals[d].auction;
    assert ds.selections[a].status == SelectionDomain.Finalized && ds.selections[a].deal == d;
    SelectedIsStored(ds, d);
    assert DealAdvances(ds.deals[d], ds'.deals[d]);
  }

  // What a selection's becoming final takes: the delivery of the payment of its current deal.
  lemma StepFinalizes(w: World, s: Step, d: DealId)
    requires WorldInv(w) && !FinalizedOn(w.deals, d) && FinalizedOn(After(w, s).deals, d)
    ensures d in w.deals.deals && w.deals.deals[d].status == PaymentRequested && d in w.billing.invoices
    ensures w.billing.invoices[d].status == InvoicePaid && w.deals.deals[d].customer != w.deals.deals[d].supplier
    ensures FinalizationAnnounced(After(w, s).deals, d)
  {
    hide WorldInv, DealsInv, BillingInv, SettlementSteps.Advances, DealsAdvances, ApplyCommand, ApplyDelivery, ApplyBilling, ApplyTrading, FinalizedOn, Quiet;
    WorldParts(w);
    StepKeeps(w, s);
    assert Enabled(w, s) && Apply(w, s).Ok?;
    AdvancesInDeals(w, After(w, s));
    if s.Deliver? && s.delivery.PaidInvoice? {
      DeliversPayment(w, s.delivery.answer);
      PaymentFinalizes(w, s.delivery.answer, d);
    } else {
      StepFinalizesNone(w, s);
      FinalizesNoneMeans(w.deals, After(w, s).deals, d);
    }
  }

  lemma DeliversPayment(w: World, e: BillingEvent)
    requires e in w.billing.outbox && e.DealInvoicePaid?
    ensures ApplyDelivery(w, PaidInvoice(e))
         == InDeals(w, HandleDealInvoicePaid(w.deals, e.deal, e.auction, e.buyer, e.goods, e.feeDue, e.amount))
  {
  }

  lemma AdvancesInDeals(w: World, w': World)
    requires SettlementSteps.Advances(w, w')
    ensures DealsAdvances(w.deals, w'.deals) && BillingAdvances(w.billing, w'.billing)
  {
  }

  lemma TradingKeepsDeals(w: World, t: TradingStep)
    requires ApplyTrading(w, t).Ok?
    ensures ApplyTrading(w, t).value.deals == w.deals
  {
  }

  lemma RequestingPayment(ds: Deals, d: DealId, dueAt: Time)
    requires DealsInv(ds) && RequestPayment(ds, d, dueAt).Ok?
    ensures var ds' := RequestPayment(ds, d, dueAt).value;
            && FinalizesNone(ds, ds') && ConfirmsNone(ds, ds') && PaymentAnnounced(ds', d)
            && (forall q | q in ds'.deals && q != d :: q in ds.deals && ds'.deals[q] == ds.deals[q])
  {
    DealKeyed(ds, d);
    var ds' := RequestPayment(ds, d, dueAt).value;
    var row := ds.deals[d];
    var e := PaymentRequestedEvent(d, row.auction, row.customer, row.supplier, row.Total(), dueAt);
    hide DealsInv;
    assert ds'.outbox == ds.outbox + [e];
    assert e in ds'.outbox;
  }

  lemma StepFinalizesNone(w: World, s: Step)
    requires WorldInv(w) && Enabled(w, s) && Apply(w, s).Ok? && !(s.Deliver? && s.delivery.PaidInvoice?)
    ensures FinalizesNone(w.deals, After(w, s).deals)
  {
    hide WorldInv, DealsInv, ApplyDelivery, ApplyBilling, ApplyTrading, RequestPayment, ApproveDealConfirmation;
    WorldParts(w);
    match s
    case Command(RequestPaymentStep(d, dueAt)) => RequestingPayment(w.deals, d, dueAt);
    case Command(ApproveStep(q, c, company, user, now)) => ApprovalConfirms(w.deals, q, c, company, user, now);
    case Command(command) => CommandQuiet(w.deals, command);
    case Deliver(v) => DeliveryQuiet(w, v);
    case Trade(t) => TradingKeepsDeals(w, t);
    case Pay(p) =>
  }

  lemma PaymentFinalizes(w: World, e: BillingEvent, d: DealId)
    requires WorldInv(w) && e in w.billing.outbox && e.DealInvoicePaid?
    requires HandleDealInvoicePaid(w.deals, e.deal, e.auction, e.buyer, e.goods, e.feeDue, e.amount).Ok?
    requires var ds' := HandleDealInvoicePaid(w.deals, e.deal, e.auction, e.buyer, e.goods, e.feeDue, e.amount).value;
             !FinalizedOn(w.deals, d) && FinalizedOn(ds', d)
    ensures d == e.deal && d in w.deals.deals && w.deals.deals[d].status == PaymentRequested && d in w.billing.invoices
    ensures w.billing.invoices[d].status == InvoicePaid && w.deals.deals[d].customer != w.deals.deals[d].supplier
    ensures FinalizationAnnounced(HandleDealInvoicePaid(w.deals, e.deal, e.auction, e.buyer, e.goods, e.feeDue, e.amount).value, d)
  {
    hide WorldInv, DealsInv, BillingInv, HandleDealInvoicePaid, PaidFor, FinalizedOn;
    WorldParts(w);
    PaidInvoiceOutcome(w, e);
    PaidEventBacked(w.billing, e);
    assert InvoiceMatchesDeal(w.billing, w.deals, e.deal);
    PaidInvoiceWellFormed(w.billing, e.deal);
    PaidForFinalizesOnly(w.deals, HandleDealInvoicePaid(w.deals, e.deal, e.auction, e.buyer, e.goods, e.feeDue, e.amount).value,
                         e.deal, e.goods, e.feeDue, d);
  }

  lemma PaidInvoiceWellFormed(b: Billing, d: DealId)
    requires BillingInv(b) && d in b.invoices
    ensures InvoiceWellFormed(d, b.invoices[d])
  {
  }

  lemma PaidForFinalizesOnly(ds: Deals, ds': Deals, q: DealId, goods: int, feeDue: int, d: DealId)
    requires DealsInv(ds) && PaidFor(ds, ds', q, goods, feeDue) && ds.deals[q].status == PaymentRequested
    requires !FinalizedOn(ds, d) && FinalizedOn(ds', d)
    ensures d == q && FinalizationAnnounced(ds', d)
  {
    hide DealsInv;
    CurrentDeal(ds, q);
    var row := ds.deals[q];
    var e := WinnerSelectionFinalized(q, row.auction, row.customer, row.unitPrice, goods, feeDue);
    assert ds'.outbox[|ds.outbox| + 1] == e;
  }

  // What a deal's confirmation takes: the approval of a waiting request for it that has not expired.
  predicate Confirms(w: World, s: Step, d: DealId) {
    && s.Command? && s.c.ApproveStep? && s.c.d == d && s.c.c in w.deals.confirmations
    && var r := w.deals.confirmations[s.c.c];
       r.status == AwaitingApproval && r.deal == d && r.stage == StageConfirmed && !r.ExpiredAt(s.c.now)
  }

  lemma StepConfirms(w: World, s: Step, d: DealId)
    requires WorldInv(w) && d in w.deals.deals && d in After(w, s).deals.deals
    requires After(w, s).deals.deals[d].confirmedAt != w.deals.deals[d].confirmedAt
    ensures Confirms(w, s, d) && w.deals.deals[d].status == Pending
  {
    hide WorldInv, DealsInv, ApplyDelivery, ApplyBilling, ApplyTrading, RequestPayment, ApproveDealConfirmation, HandleDealInvoicePaid;
    WorldParts(w);
    match s
    case Command(RequestPaymentStep(q, dueAt)) => RequestingPayment(w.deals, q, dueAt);
    case Command(ApproveStep(q, c, company, user, now)) => ApprovalConfirms(w.deals, q, c, company, user, now);
    case Command(command) => CommandQuiet(w.deals, command);
    case Deliver(PaidInvoice(e)) =>
      DeliversPayment(w, e);
      PaymentConfirmsNone(w, e);
    case Deliver(v) => DeliveryQuiet(w, v);
    case Trade(t) => TradingKeepsDeals(w, t);
    case Pay(p) =>
  }

  lemma PaymentConfirmsNone(w: World, e: BillingEvent)
    requires WorldInv(w) && e in w.billing.outbox && e.DealInvoicePaid?
    requires HandleDealInvoicePaid(w.deals, e.deal, e.auction, e.buyer, e.goods, e.feeDue, e.amount).Ok?
    ensures var ds' := HandleDealInvoicePaid(w.deals, e.deal, e.auction, e.buyer, e.goods, e.feeDue, e.amount).value;
            ConfirmsNone(w.deals, ds') && AsksNoPayment(w.deals, ds')
            && ApplyDelivery(w, PaidInvoice(e)) == Ok(w.(deals := ds'))
  {
    hide HandleDealInvoicePaid, DealsInv;
    PaidInvoiceOutcome(w, e);
  }

  // ---------- nothing is lost ----------

  lemma StepAsks(w: World, s: Step, d: DealId)
    requires WorldInv(w) && d in After(w, s).deals.deals && After(w, s).deals.deals[d].status == PaymentRequested
    ensures (d in w.deals.deals && w.deals.deals[d].status == PaymentRequested) || PaymentAnnounced(After(w, s).deals, d)
  {
    hide WorldInv, DealsInv, ApplyDelivery, ApplyBilling, ApplyTrading, RequestPayment, ApproveDealConfirmation, HandleDealInvoicePaid,
         PaymentAnnounced;
    WorldParts(w);
    if Enabled(w, s) && Apply(w, s).Ok? {
      match s
      case Command(RequestPaymentStep(q, dueAt)) => RequestingPayment(w.deals, q, dueAt);
      case Command(ApproveStep(q, c, company, user, now)) => ApprovalConfirms(w.deals, q, c, company, user, now);
      case Command(command) => CommandQuiet(w.deals, command);
      case Deliver(PaidInvoice(e)) =>
        DeliversPayment(w, e);
        PaymentConfirmsNone(w, e);
      case Deliver(v) => DeliveryQuiet(w, v);
      case Trade(t) => TradingKeepsDeals(w, t);
      case Pay(p) =>
    }
  }

  lemma StepKeepsDealsAnnounced(w: World, s: Step)
    requires WorldInv(w) && DealsAnnounced(w.deals)
    ensures DealsAnnounced(After(w, s).deals)
  {
    hide After, WorldInv, SettlementSteps.Advances, FinalizedOn;
    StepKeeps(w, s);
    AdvancesInDeals(w, After(w, s));
    var ds, ds' := w.deals, After(w, s).deals;
    assert forall e | e in ds.outbox :: e in ds'.outbox;
    hide DealsAdvances;
    forall d | d in ds'.deals && ds'.deals[d].status == PaymentRequested
      ensures PaymentAnnounced(ds', d)
    {
      StepAsks(w, s, d);
    }
    forall d | FinalizedOn(ds', d)
      ensures FinalizationAnnounced(ds', d)
    {
      if !FinalizedOn(ds, d) {
        StepFinalizes(w, s, d);
      }
    }
  }

  // Every payment of an invoice is announced.
  lemma BillingStepKeepsReceipts(w: World, p: BillingStep)
    requires WorldInv(w) && ReceiptsAnnounced(w.billing) && Enabled(w, Pay(p)) && ApplyBilling(w.billing, p).Ok?
    ensures ReceiptsAnnounced(ApplyBilling(w.billing, p).value)
  {
    hide BillingInv, BillingAdvances, Ledger.Exists;
    WorldParts(w);
    BillingStepIsPlain(w, p);
    var b, b' := w.billing, ApplyBilling(w.billing, p).value;
    assert b.outbox <= b'.outbox && forall e | e in b.outbox :: e in b'.outbox by { OutboxGrows(b, b'); }
    forall d | d in b'.invoices && b'.invoices[d].status == InvoicePaid
      ensures ReceiptAnnounced(b', d)
    {
      assert d in b.invoices.Keys;
      if b.invoices[d].status == InvoicePaid {
        assert ReceiptAnnounced(b, d);
      } else {
        PaymentAnnouncesReceipt(w, p, d);
      }
    }
  }

  lemma OutboxGrows(b: Billing, b': Billing)
    requires BillingAdvances(b, b')
    ensures b.outbox <= b'.outbox && forall e | e in b.outbox :: e in b'.outbox
  {
  }

  lemma PaymentAnnouncesReceipt(w: World, p: BillingStep, d: DealId)
    requires BillingInv(w.billing) && ApplyBilling(w.billing, p).Ok? && d in w.billing.invoices && w.billing.invoices[d].status != InvoicePaid
    requires d in ApplyBilling(w.billing, p).value.invoices && ApplyBilling(w.billing, p).value.invoices[d].status == InvoicePaid
    ensures ReceiptAnnounced(ApplyBilling(w.billing, p).value, d)
  {
    PaidInvoiceWellFormed(w.billing, d);
    hide BillingInv, Ledger.Exists;
    var i, b' := w.billing.invoices[d], ApplyBilling(w.billing, p).value;
    assert p == InvoicePaidStep(d);
    var e := BillingEvent.DealInvoicePaid(i.deal, i.auction, i.buyer, i.goods, i.feeDue, i.total);
    assert b'.outbox == w.billing.outbox + [e];
    assert e in b'.outbox;
  }

  // Deliveries and bids may open an invoice, but neither pay nor expire one.
  predicate LeavesInvoices(b: Billing, b': Billing) {
    && b'.outbox == b.outbox
    && forall d | d in b'.invoices ::
         if d in b.invoices then b'.invoices[d] == b.invoices[d] else b'.invoices[d].status == InvoicePaymentPending
  }

  lemma ReleaseLeavesInvoices(w: World, won: TradingRules.Posted)
    requires WorldInv(w) && won in w.trading.outbox && won.event.AuctionWon?
    requires ReleaseAuctionDepositsExceptCandidates(w.billing, won.event.auction, won.event.winners).Ok?
    ensures LeavesInvoices(w.billing, ReleaseAuctionDepositsExceptCandidates(w.billing, won.event.auction, won.event.winners).value)
  {
    hide WorldInv, BillingInv, BillingAdvances, ReleaseAuctionDepositsExceptCandidates;
    WorldParts(w);
    WonIsAnnounced(w, won);
    ReleaseExceptOutcome(w.billing, won.event.auction, won.event.winners);
  }

  lemma RejectionLeavesInvoices(w: World, e: DealEvent)
    requires WorldInv(w) && e in w.deals.outbox && e.WinnerRejected? && CaptureAuctionDeposit(w.billing, e.company, e.auction).Ok?
    ensures LeavesInvoices(w.billing, CaptureAuctionDeposit(w.billing, e.company, e.auction).value)
  {
    hide WorldInv, BillingInv, BillingAdvances, CaptureAuctionDeposit, Settled, Forfeited;
    WorldParts(w);
    RejectedWinnerOutcome(w, e);
    CaptureOutcome(w.billing, e.company, e.auction);
  }

  lemma InvoicingLeavesOthers(b: Billing, cmd: InvoiceCommand, now: Time, providerAnswers: bool)
    requires CreateDealInvoice(b, cmd, now, providerAnswers).Ok?
    ensures LeavesInvoices(b, CreateDealInvoice(b, cmd, now, providerAnswers).value)
  {
    hide Money.PlatformFee;
  }

  lemma DeliveryLeavesInvoices(w: World, v: Delivery)
    requires WorldInv(w) && Enabled(w, Deliver(v)) && ApplyDelivery(w, v).Ok?
    ensures LeavesInvoices(w.billing, ApplyDelivery(w, v).value.billing)
  {
    hide WorldInv, CreateDealSelection, DealsProgress.OnDealCancelled, HandleDealInvoicePaid, HandleDealInvoiceExpired,
         ReleaseAuctionDepositsExceptCandidates, CaptureAuctionDeposit, CreateDealInvoice, FinalizeAuction;
    match v
    case ReleaseLosers(won) => ReleaseLeavesInvoices(w, won);
    case RejectedWinner(e) => RejectionLeavesInvoices(w, e);
    case RequestedPayment(e, now, providerAnswers) =>
      InvoicingLeavesOthers(w.billing, InvoiceCommand(e.deal, e.auction, e.buyer, e.seller, e.goods, e.dueAt), now, providerAnswers);
    case FinalizedSelection(e) => FinalizationLeavesInvoices(w, e);
    case _ =>
  }

  lemma FinalizationLeavesInvoices(w: World, e: DealEvent)
    requires WorldInv(w) && e in w.deals.outbox && e.WinnerSelectionFinalized?
    ensures var r := FinalizeAuction(w.billing, PayoutFor(e));
            r.Ok? && r.value.outbox == w.billing.outbox && r.value.invoices == w.billing.invoices
  {
    hide FinalizeAuction, WorldInv, SettlementSteps.Advances;
    if e.deal in w.billing.payouts {
      FinalizeIsIdle(w, e);
    } else {
      FinalizeSettles(w, e);
    }
  }

  lemma TradingLeavesPapers(w: World, t: TradingStep)
    requires WorldInv(w) && ApplyTrading(w, t).Ok?
    ensures SamePapers(w.billing, ApplyTrading(w, t).value.billing)
  {
    hide WorldInv;
    if t.BidStep? {
      SettlementSteps.BidOutcome(w, t.a, t.bidder, t.amount, t.placedAt, t.at);
      hide ApplyBid;
    }
  }

  lemma StepKeepsReceipts(w: World, s: Step)
    requires WorldInv(w) && ReceiptsAnnounced(w.billing)
    ensures ReceiptsAnnounced(After(w, s).billing)
  {
    hide WorldInv, ApplyCommand, ApplyDelivery, ApplyBilling, ApplyTrading, ReceiptAnnounced;
    if Enabled(w, s) && Apply(w, s).Ok? {
      match s
      case Pay(p) => BillingStepKeepsReceipts(w, p);
      case Deliver(v) =>
        DeliveryLeavesInvoices(w, v);
        SameReceipts(w.billing, After(w, s).billing);
      case Trade(t) =>
        TradingLeavesPapers(w, t);
        SameReceipts(w.billing, After(w, s).billing);
      case Command(c) =>
    }
  }

  lemma SameReceipts(b: Billing, b': Billing)
    requires ReceiptsAnnounced(b) && LeavesInvoices(b, b')
    ensures ReceiptsAnnounced(b')
  {
    forall d | d in b'.invoices && b'.invoices[d].status == InvoicePaid
      ensures ReceiptAnnounced(b', d)
    {
      assert ReceiptAnnounced(b, d);
    }
  }

  // In every state of every run each deal that waits for its payment, each finalized selection and each paid invoice has
  // its event in the outbox.
  lemma {:induction false} EveryRunAnnounces(steps: seq<Step>)
    ensures DealsAnnounced(Run(START, steps).deals) && ReceiptsAnnounced(Run(START, steps).billing)
  {
    if steps != [] {
      hide After, DealsAnnounced, ReceiptsAnnounced, WorldInv;
      var before := Run(START, steps[..|steps| - 1]);
      EveryRunAnnounces(steps[..|steps| - 1]);
      EveryRun(steps[..|steps| - 1]);
      StepKeepsDealsAnnounced(before, steps[|steps| - 1]);
      StepKeepsReceipts(before, steps[|steps| - 1]);
    }
  }
}
