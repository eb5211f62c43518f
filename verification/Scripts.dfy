/** Ways to get from one state of the system to another, used to show that the states the theorems speak of are reached. */
module Scripts {
  import opened Common
  import opened Wallet
  import opened BillingRules
  import opened BillingInvariants
  import opened DealDomain
  import opened DealsRules
  import opened DealsInvariants
  import opened DealsOutcomes
  import opened Settlement
  import opened SettlementInvariants
  import opened SettlementSteps
  import opened ConfirmationRuns
  import opened Announcements
  import Money
  import BillingOutcomes
  import SelectionDomain
  import DealsProgress
  import SettlementRuns
  import SettlementTheorems

  // What every reachable state satisfies.
  datatype Side = Contexts | Requests | Events

  ghost predicate Shows(side: Side, w: World) {
    match side
    case Contexts => WorldInv(w)
    case Requests => RequestsOk(w.deals)
    case Events => DealsAnnounced(w.deals) && ReceiptsAnnounced(w.billing)
  }

  ghost predicate Good(w: World) {
    forall side: Side :: Shows(side, w)
  }

  lemma GoodParts(w: World)
    requires Good(w)
    ensures WorldInv(w) && RequestsOk(w.deals) && DealsInv(w.deals) && BillingInv(w.billing)
    ensures DealsAnnounced(w.deals) && ReceiptsAnnounced(w.billing)
  {
    hide WorldInv, RequestsOk, DealsInv, BillingInv, DealsAnnounced, ReceiptsAnnounced;
    assert Shows(Contexts, w) && Shows(Requests, w) && Shows(Events, w);
    WorldParts(w);
  }

  lemma StepKeepsGood(w: World, s: Step)
    requires Good(w)
    ensures Good(After(w, s)) && Advances(w, After(w, s))
  {
    hide WorldInv, RequestsOk, DealsInv, BillingInv, DealsAnnounced, ReceiptsAnnounced, Advances, After;
    GoodParts(w);
    SettlementRuns.StepKeeps(w, s);
    StepKeepsRequests(w, s);
    StepKeepsDealsAnnounced(w, s);
    StepKeepsReceipts(w, s);
  }

  lemma {:induction false} RunKeepsGood(w: World, steps: seq<Step>)
    requires Good(w)
    ensures Good(Run(w, steps)) && Advances(w, Run(w, steps))
  {
    hide Good, Advances, After;
    if steps == [] {
      AdvancesReflexive(w);
    } else {
      var init := steps[..|steps| - 1];
      RunKeepsGood(w, init);
      StepKeepsGood(Run(w, init), steps[|steps| - 1]);
      AdvancesTransitive(w, Run(w, init), Run(w, steps));
    }
  }

  lemma StartIsGood()
    ensures Good(START)
  {
    hide WorldInv, RequestsOk, DealsAnnounced, ReceiptsAnnounced;
    StartInv();
    EveryRunKeepsRequests([]);
    EveryRunAnnounces([]);
  }

  // Some run that answers requests from a given time on leads from w to w'.
  ghost predicate Reaches(w: World, w': World, since: Time) {
    exists steps: seq<Step> :: AnswersFrom(steps, since) && Run(w, steps) == w'
  }

  predicate AnswersFrom(steps: seq<Step>, since: Time) {
    forall s | s in steps :: NotBefore(s, since)
  }

  lemma ReachesItself(w: World, since: Time)
    ensures Reaches(w, w, since)
  {
    assert AnswersFrom([], since) && Run(w, []) == w;
  }

  lemma ReachesOn(w0: World, w1: World, w2: World, since: Time)
    requires Reaches(w0, w1, since) && Reaches(w1, w2, since)
    ensures Reaches(w0, w2, since)
  {
    hide Run;
    var steps :| AnswersFrom(steps, since) && Run(w0, steps) == w1;
    var more :| AnswersFrom(more, since) && Run(w1, more) == w2;
    SettlementRuns.RunConcat(w0, steps, more);
    assert AnswersFrom(steps + more, since);
  }

  lemma ReachedIsGood(w: World, since: Time)
    requires Reaches(START, w, since)
    ensures Good(w)
  {
    hide Run, Good;
    var steps :| AnswersFrom(steps, since) && Run(START, steps) == w;
    StartIsGood();
    RunKeepsGood(START, steps);
  }

  // What some run of possible steps gives.
  ghost predicate Leads(w: World, w': World, since: Time) {
    Good(w') && Advances(w, w') && Reaches(w, w', since)
  }

  lemma Do(w: World, s: Step, since: Time)
    requires Good(w) && Enabled(w, s) && Apply(w, s).Ok? && NotBefore(s, since)
    ensures Leads(w, Apply(w, s).value, since)
  {
    hide Good, Advances, Apply, Enabled, NotBefore;
    StepKeepsGood(w, s);
    SettlementRuns.OneStep(w, s);
    assert AnswersFrom([s], since) && Run(w, [s]) == After(w, s);
    hide Run;
  }

  lemma LeadsItself(w: World, since: Time)
    requires Good(w)
    ensures Leads(w, w, since)
  {
    hide Advances, Good;
    AdvancesReflexive(w);
    ReachesItself(w, since);
  }

  lemma LeadsOn(w0: World, w1: World, w2: World, since: Time)
    requires Leads(w0, w1, since) && Leads(w1, w2, since)
    ensures Leads(w0, w2, since)
  {
    hide Advances, Good, Reaches;
    AdvancesTransitive(w0, w1, w2);
    ReachesOn(w0, w1, w2, since);
  }

  lemma LeadsTo(w: World, w': World, since: Time)
    requires Leads(w, w', since)
    ensures Good(w') && WorldInv(w') && RequestsOk(w'.deals) && DealsInv(w'.deals) && BillingInv(w'.billing)
    ensures DealsAdvances(w.deals, w'.deals) && BillingAdvances(w.billing, w'.billing)
  {
    hide Good, WorldInv, RequestsOk, DealsInv, BillingInv, DealsAdvances, BillingAdvances;
    GoodParts(w');
  }

  lemma DoCommand(w: World, c: DealsStep, since: Time) returns (w': World)
    requires Good(w) && Enabled(w, Command(c)) && ApplyCommand(w.deals, c).Ok? && NotBefore(Command(c), since)
    ensures w' == w.(deals := ApplyCommand(w.deals, c).value) && Leads(w, w', since)
  {
    hide Good, Leads, Enabled, ApplyCommand, NotBefore;
    Do(w, Command(c), since);
    w' := w.(deals := ApplyCommand(w.deals, c).value);
  }

  lemma DoBilling(w: World, p: BillingStep, since: Time) returns (w': World)
    requires Good(w) && Enabled(w, Pay(p)) && ApplyBilling(w.billing, p).Ok?
    ensures w' == w.(billing := ApplyBilling(w.billing, p).value) && Leads(w, w', since)
  {
    hide Good, Leads, Enabled, ApplyBilling;
    Do(w, Pay(p), since);
    w' := w.(billing := ApplyBilling(w.billing, p).value);
  }

  lemma DoDelivery(w: World, v: Delivery, since: Time) returns (w': World)
    requires Good(w) && Enabled(w, Deliver(v)) && ApplyDelivery(w, v).Ok?
    ensures w' == ApplyDelivery(w, v).value && Leads(w, w', since)
  {
    hide Good, Leads, ApplyDelivery;
    Do(w, Deliver(v), since);
    w' := ApplyDelivery(w, v).value;
  }

  // ---------- the confirmation of a deal ----------

  lemma SupplierNamed(ds: Deals, d: DealId)
    requires DealsInv(ds) && d in ds.deals
    ensures ds.deals[d].supplier != NO_ID && ds.deals[d].customer != NO_ID && d != NO_ID && ds.deals[d].id == d
    ensures ds.deals[d].quantity == 1 && ds.deals[d].unitPrice > 0
  {
    DealsParts(ds);
    DealKeyed(ds, d);
    BuyerNamed(ds, d);
    var a := ds.deals[d].auction;
    assert DealOk(ds, d) && SelectionOk(ds, a);
    var attempts := Attempts(ds.outbox, a);
    hide Attempts, DealsInv;
    var k :| 0 <= k < |attempts| && attempts[k] == d;
    assert AttemptFits(ds, ds.selections[a], k, attempts[k]);
  }

  lemma {:induction false} Above(s: set<nat>) returns (m: nat)
    ensures m > 0 && forall x | x in s :: x < m
  {
    if s == {} {
      m := 1;
    } else {
      var x :| x in s;
      m := Above(s - {x});
      m := if x < m then m else x + 1;
      assert forall y | y in s :: y == x || y in s - {x};
    }
  }

  // The seller asks, addressed to the buyer.
  lemma Ask(w: World, d: DealId, c: ConfirmationId, stage: Stage, comment: CancelReason, expiresAt: Option<Time>, since: Time)
    returns (w': World)
    requires Good(w) && d in w.deals.deals && w.deals.deals[d].customer != w.deals.deals[d].supplier
    requires w.deals.deals[d].CanRequestStage(stage) && c != NO_ID && c !in w.deals.confirmations && Free(w.deals, d, stage)
    ensures Leads(w, w', since) && w'.billing == w.billing && w'.trading == w.trading
    ensures w'.deals.deals == w.deals.deals && w'.deals.selections == w.deals.selections
    ensures c in w'.deals.confirmations && w'.deals.confirmations == w.deals.confirmations[c := w'.deals.confirmations[c]]
    ensures var row := w.deals.deals[d];
            w'.deals.confirmations[c] == ConfirmationRow(c, d, stage, 1, row.supplier, row.customer, comment, expiresAt, AwaitingApproval)
  {
    hide Good, WorldInv, RequestsOk, Leads, DealsInv, BillingInv;
    GoodParts(w);
    SupplierNamed(w.deals, d);
    FreeMeansNonePending(w.deals, d, stage);
    hide Free, HasPendingConfirmation;
    w' := DoCommand(w, RequestConfirmationStep(d, c, stage, w.deals.deals[d].supplier, 1, comment, expiresAt), since);
  }

  // The addressee of a waiting request agrees, and the deal is confirmed.
  lemma Agree(w: World, d: DealId, c: ConfirmationId, since: Time) returns (w': World)
    requires Good(w) && d in w.deals.deals && w.deals.deals[d].status == Pending
    requires Waiting(w.deals, c) && w.deals.confirmations[c].deal == d && w.deals.confirmations[c].stage == StageConfirmed
    requires !w.deals.confirmations[c].ExpiredAt(since)
    ensures Leads(w, w', since) && w'.billing == w.billing && w'.trading == w.trading && ConfirmedNow(w.deals, w'.deals, d, since)
    ensures w'.deals.confirmations == w.deals.confirmations[c := w.deals.confirmations[c].(status := Approved)]
  {
    hide Good, WorldInv, RequestsOk, Leads, DealsInv, BillingInv, Attempts;
    GoodParts(w);
    RequestNamed(w.deals, c);
    var company := w.deals.confirmations[c].counterparty;
    ApproveSucceedsIff(w.deals, d, c, company, 1, since);
    ApproveCases(w.deals, d, c, company, 1, since);
    hide ApproveDealConfirmation;
    w' := DoCommand(w, ApproveStep(d, c, company, 1, since), since);
  }

  lemma RequestNamed(ds: Deals, c: ConfirmationId)
    requires RequestsOk(ds) && c in ds.confirmations
    ensures RequestOk(ds, c)
  {
  }

  // ds' is ds with deal d just confirmed, apart from the paperwork.
  predicate ConfirmedNow(ds: Deals, ds': Deals, d: DealId, now: Time) {
    && d in ds.deals && ds'.deals == ds.deals[d := ds.deals[d].(status := Confirmed, confirmedAt := Some(now))]
    && ds.deals[d].auction in ds.selections
    && ds'.selections
       == ds.selections[ds.deals[d].auction := ds.selections[ds.deals[d].auction].(status := SelectionDomain.ConfirmedPendingPayment)]
  }

  lemma Confirm(w: World, d: DealId, c: ConfirmationId, since: Time) returns (w': World)
    requires Good(w) && d in w.deals.deals && w.deals.deals[d].status == Pending && w.deals.deals[d].customer != w.deals.deals[d].supplier
    requires Free(w.deals, d, StageConfirmed) && c != NO_ID && c !in w.deals.confirmations
    ensures Leads(w, w', since) && w'.billing == w.billing && w'.trading == w.trading && ConfirmedNow(w.deals, w'.deals, d, since)
    ensures c in w'.deals.confirmations && w'.deals.confirmations == w.deals.confirmations[c := w'.deals.confirmations[c]]
    ensures w'.deals.confirmations[c].status == Approved
  {
    hide Good, Leads, Free;
    var w1 := Ask(w, d, c, StageConfirmed, NoReason, None, since);
    LeadsGood(w, w1, since);
    w' := Agree(w1, d, c, since);
    LeadsOn(w, w1, w', since);
  }

  lemma LeadsGood(w: World, w': World, since: Time)
    requires Leads(w, w', since)
    ensures Good(w')
  {
  }

  // A request to confirm the deal is waiting and can no longer be answered.
  ghost predicate ConfirmationOverdue(ds: Deals, d: DealId, since: Time) {
    exists c | Waiting(ds, c) ::
      ds.confirmations[c].deal == d && ds.confirmations[c].stage == StageConfirmed && ds.confirmations[c].ExpiredAt(since)
  }

  // A deal that waits for its confirmation can be confirmed: by the answer to the request that waits, or by a new one.
  lemma ConfirmPending(w: World, d: DealId, since: Time) returns (w': World)
    requires Good(w) && d in w.deals.deals && w.deals.deals[d].status == Pending && w.deals.deals[d].customer != w.deals.deals[d].supplier
    requires !ConfirmationOverdue(w.deals, d, since)
    ensures Leads(w, w', since) && w'.billing == w.billing && w'.trading == w.trading && ConfirmedNow(w.deals, w'.deals, d, since)
  {
    hide Good, Leads, ConfirmedNow;
    if c :| Waiting(w.deals, c) && w.deals.confirmations[c].deal == d && w.deals.confirmations[c].stage == StageConfirmed {
      w' := Agree(w, d, c, since);
    } else {
      var c := Above(w.deals.confirmations.Keys);
      w' := Confirm(w, d, c, since);
    }
  }

  // ---------- from the confirmation to the payment request ----------

  predicate AwaitsPaperwork(row: DealRow) {
    row.confirmedAt.Some? && row.status in {Confirmed, ContractPrepared, ContractSigned}
  }

  function NextCommand(d: DealId, status: DealStatus): DealsStep {
    match status
    case Confirmed => PrepareContractStep(d, 1, 0)
    case ContractPrepared => SignContractStep(d, 1, 1, 0)
    case _ => RequestPaymentStep(d, 0)
  }

  // ds' is ds with only deal d and the outbox changed; d has come nearer to its payment request.
  predicate Nearer(ds: Deals, ds': Deals, d: DealId) {
    && d in ds.deals && d in ds'.deals && ds'.deals == ds.deals[d := ds'.deals[d]]
    && ds'.deals[d] == ds.deals[d].(status := ds'.deals[d].status, contract := ds'.deals[d].contract)
    && Rank(ds.deals[d].status) < Rank(ds'.deals[d].status)
    && (ds'.deals[d].status == PaymentRequested || AwaitsPaperwork(ds'.deals[d]))
    && ds' == ds.(deals := ds'.deals, outbox := ds'.outbox)
  }

  lemma NextSucceeds(ds: Deals, d: DealId)
    requires DealsInv(ds) && d in ds.deals && AwaitsPaperwork(ds.deals[d])
    ensures var r := ApplyCommand(ds, NextCommand(d, ds.deals[d].status)); r.Ok? && Nearer(ds, r.value, d)
  {
    DealFits(ds, d);
    CurrentDeal(ds, d);
    DealKeyed(ds, d);
    SupplierNamed(ds, d);
    hide DealsInv, Attempts;
  }

  // Contract prepared, signed, payment requested.
  lemma {:induction false} RequestPaid(w: World, d: DealId, since: Time) returns (w': World)
    requires Good(w) && d in w.deals.deals && AwaitsPaperwork(w.deals.deals[d])
    ensures Leads(w, w', since) && w'.billing == w.billing && w'.trading == w.trading
    ensures Nearer(w.deals, w'.deals, d) && w'.deals.deals[d].status == PaymentRequested
    decreases 9 - Rank(w.deals.deals[d].status)
  {
    hide Good, Leads, ApplyCommand, DealsInv, BillingInv, WorldInv, RequestsOk, DealsAnnounced, ReceiptsAnnounced;
    GoodParts(w);
    NextSucceeds(w.deals, d);
    w' := DoCommand(w, NextCommand(d, w.deals.deals[d].status), since);
    if w'.deals.deals[d].status != PaymentRequested {
      var w1 := w';
      LeadsGood(w, w1, since);
      w' := RequestPaid(w1, d, since);
      LeadsOn(w, w1, w', since);
    }
  }

  // ---------- from the payment request to the payout ----------

  // Billing opens the invoice of a deal that waits for its payment.
  lemma Invoice(w: World, d: DealId, since: Time) returns (w': World)
    requires Good(w) && d in w.deals.deals && w.deals.deals[d].status == PaymentRequested
    requires w.deals.deals[d].customer != w.deals.deals[d].supplier && d !in w.billing.invoices
    ensures Leads(w, w', since) && w'.deals == w.deals && w'.trading == w.trading && w'.billing == w.billing.(invoices := w'.billing.invoices)
    ensures d in w'.billing.invoices && w'.billing.invoices[d].status == InvoicePaymentPending
  {
    hide Good, WorldInv, RequestsOk, Leads, DealsInv, BillingInv, BillingAdvances;
    GoodParts(w);
    assert PaymentAnnounced(w.deals, d);
    var e :| e in w.deals.outbox && e.PaymentRequestedEvent? && e.deal == d;
    SupplierNamed(w.deals, d);
    SettlementRuns.RequestedPaymentFacts(w, e);
    InvoiceOpens(w.billing, InvoiceCommand(e.deal, e.auction, e.buyer, e.seller, e.goods, e.dueAt));
    BillingOutcomes.CreateDealInvoiceKeeps(w.billing, InvoiceCommand(e.deal, e.auction, e.buyer, e.seller, e.goods, e.dueAt), 0, true);
    w' := DoDelivery(w, RequestedPayment(e, 0, true), since);
  }

  lemma InvoiceOpens(b: Billing, cmd: InvoiceCommand)
    requires cmd.deal != NO_ID && cmd.buyer != NO_ID && cmd.seller != NO_ID && cmd.buyer != cmd.seller && cmd.goods > 0
    requires DepositKey(cmd.auction, cmd.buyer) in b.deposits
    ensures CreateDealInvoice(b, cmd, 0, true).Ok?
  {
    hide Money.PlatformFee;
  }

  // The payment provider reports the invoice as paid.
  lemma PayInvoice(w: World, d: DealId, since: Time) returns (w': World)
    requires Good(w) && d in w.billing.invoices && w.billing.invoices[d].status == InvoicePaymentPending
    ensures Leads(w, w', since) && w'.deals == w.deals && w'.trading == w.trading
    ensures w'.billing.deposits == w.billing.deposits && w'.billing.payouts == w.billing.payouts
    ensures d in w'.billing.invoices && w'.billing.invoices[d].status == InvoicePaid
  {
    hide Good, WorldInv, RequestsOk, Leads, DealsInv, BillingInv, ConfirmDealInvoicePaid;
    GoodParts(w);
    PaymentAccepted(w.billing, d);
    w' := DoBilling(w, InvoicePaidStep(d), since);
  }

  lemma PaymentAccepted(b: Billing, d: DealId)
    requires BillingInv(b) && d in b.invoices && b.invoices[d].status == InvoicePaymentPending
    ensures ConfirmDealInvoicePaid(b, d).Ok?
    ensures var b' := ConfirmDealInvoicePaid(b, d).value;
            && b'.deposits == b.deposits && b'.payouts == b.payouts
            && d in b'.invoices && b'.invoices[d].status == InvoicePaid
  {
    PaidInvoiceWellFormed(b, d);
  }

  // The deal is paid and its selection finalized.
  lemma Finalize(w: World, d: DealId, since: Time) returns (w': World)
    requires Good(w) && d in w.billing.invoices && w.billing.invoices[d].status == InvoicePaid
    requires d in w.deals.deals && w.deals.deals[d].status == PaymentRequested
    ensures Leads(w, w', since) && w'.billing == w.billing && w'.trading == w.trading && FinalizedOn(w'.deals, d)
    ensures w'.deals.deals[d] == w.deals.deals[d].(status := Paid)
  {
    hide Good, WorldInv, RequestsOk, Leads, DealsInv, BillingInv, HandleDealInvoicePaid;
    GoodParts(w);
    assert ReceiptAnnounced(w.billing, d);
    var e :| e in w.billing.outbox && e.DealInvoicePaid? && e.deal == d;
    SettlementRuns.PaidInvoiceOutcome(w, e);
    CurrentDeal(w.deals, d);
    w' := DoDelivery(w, PaidInvoice(e), since);
  }

  predicate PaidOut(b: Billing, d: DealId) {
    d in b.payouts && b.payouts[d].status == PayoutPaid
  }

  // The payout is readied and credited.
  lemma Credit(w: World, d: DealId, since: Time) returns (w': World)
    requires Good(w) && d in w.billing.payouts && w.billing.payouts[d].status != PayoutFailed
    ensures Leads(w, w', since) && PaidOut(w'.billing, d) && w'.deals == w.deals && w'.billing.deposits == w.billing.deposits
  {
    hide Good, Leads, BillingInv, BillingAdvances, MarkSellerPayoutPaid, DealsInv, WorldInv, RequestsOk;
    GoodParts(w);
    LeadsItself(w, since);
    var w1 := w;
    PayoutKeyed(w.billing, d);
    if w.billing.payouts[d].status == PayoutPending {
      w1 := DoBilling(w, PayoutReadyStep(d), since);
    }
    LeadsTo(w, w1, since);
    BillingOutcomes.MarkSellerPayoutPaidOutcome(w1.billing, d);
    w' := DoBilling(w1, PayoutPaidStep(d), since);
    LeadsOn(w, w1, w', since);
  }

  lemma PayoutKeyed(b: Billing, d: DealId)
    requires BillingInv(b) && d in b.payouts
    ensures d != NO_ID && b.payouts[d].status in {PayoutPending, PayoutReady, PayoutPaid, PayoutFailed}
  {
    assert PayoutAudited(b, d) && InvoiceWellFormed(d, b.invoices[d]);
  }

  // Every other HELD deposit of the auction was given back; deposits that had ended stay as they were.
  predicate SettledFor(b: Billing, b': Billing, a: AuctionId, winner: CompanyId) {
    forall k | k in b.deposits && k.auction == a && k.company != winner ::
      k in b'.deposits && b'.deposits[k] == if b.deposits[k].status == HELD then b.deposits[k].(status := RELEASED) else b.deposits[k]
  }

  // A run from w to w' in which the seller of deal d is paid and, unless that was done already, its auction is settled.
  ghost predicate Sold(w: World, w': World, d: DealId, since: Time) {
    && Leads(w, w', since) && PaidOut(w'.billing, d)
    && (d in w.deals.deals && d !in w.billing.payouts ==>
          SettledFor(w.billing, w'.billing, w.deals.deals[d].auction, w.deals.deals[d].customer))
  }

  lemma SoldEarlier(w: World, w1: World, w': World, d: DealId, since: Time)
    requires Leads(w, w1, since) && Sold(w1, w', d, since)
    requires w1.billing.deposits == w.billing.deposits && w1.billing.payouts == w.billing.payouts
    requires d in w.deals.deals && d in w1.deals.deals
    requires w1.deals.deals[d].auction == w.deals.deals[d].auction && w1.deals.deals[d].customer == w.deals.deals[d].customer
    ensures Sold(w, w', d, since)
  {
    hide Leads;
    LeadsOn(w, w1, w', since);
  }

  lemma SettledRows(b: Billing, b': Billing, cmd: PayoutCommand)
    requires BillingOutcomes.AuctionSettled(b, b', cmd)
    ensures SettledFor(b, b', cmd.auction, cmd.buyer)
    ensures cmd.deal in b'.payouts && b'.payouts[cmd.deal].status == PayoutPending && b'.payouts[cmd.deal].auction == cmd.auction
  {
    assert forall k | k in b.deposits :: k in b'.deposits.Keys;
  }

  // A finalized sale is paid out unless its payout has failed.
  lemma SellFinalized(w: World, d: DealId, since: Time) returns (w': World)
    requires Good(w) && FinalizedOn(w.deals, d) && (d in w.billing.payouts ==> w.billing.payouts[d].status != PayoutFailed)
    ensures Sold(w, w', d, since)
  {
    hide Good, Leads, BillingInv, BillingAdvances, FinalizeAuction, BillingOutcomes.AuctionSettled, DealsInv, WorldInv, RequestsOk, FinalizedOn, SettledFor;
    GoodParts(w);
    if d in w.billing.payouts {
      w' := Credit(w, d, since);
    } else {
      assert FinalizationAnnounced(w.deals, d);
      var e :| e in w.deals.outbox && e.WinnerSelectionFinalized? && e.deal == d;
      SettlementRuns.FinalizedFacts(w, e);
      SettlementRuns.FinalizeSettles(w, e);
      var w1 := DoDelivery(w, FinalizedSelection(e), since);
      SettledRows(w.billing, w1.billing, SettlementRuns.PayoutFor(e));
      LeadsGood(w, w1, since);
      w' := Credit(w1, d, since);
      LeadsOn(w, w1, w', since);
      SettledForSame(w.billing, w1.billing, w'.billing, e.auction, e.company);
    }
  }

  lemma SettledForSame(b: Billing, b1: Billing, b2: Billing, a: AuctionId, winner: CompanyId)
    requires SettledFor(b, b1, a, winner) && b2.deposits == b1.deposits
    ensures SettledFor(b, b2, a, winner)
  {
  }

  // A deal that waits for its payment is sold unless its invoice has expired.
  lemma SellRequested(w: World, d: DealId, since: Time) returns (w': World)
    requires Good(w) && d in w.deals.deals && w.deals.deals[d].status == PaymentRequested
    requires w.deals.deals[d].customer != w.deals.deals[d].supplier
    requires d in w.billing.invoices ==> w.billing.invoices[d].status != InvoiceExpired
    ensures Sold(w, w', d, since)
  {
    hide Good, Leads, DealsInv, BillingInv, WorldInv, RequestsOk, Sold, FinalizedOn;
    GoodParts(w);
    LeadsItself(w, since);
    var w1, w2 := w, w;
    if d !in w.billing.invoices {
      w1 := Invoice(w, d, since);
      LeadsTo(w, w1, since);
    }
    PaidInvoiceWellFormed(w1.billing, d);
    w2 := w1;
    if w1.billing.invoices[d].status == InvoicePaymentPending {
      w2 := PayInvoice(w1, d, since);
      LeadsOn(w, w1, w2, since);
    }
    LeadsGood(w, w2, since);
    var w3 := Finalize(w2, d, since);
    LeadsOn(w, w2, w3, since);
    LeadsTo(w, w3, since);
    NotYetPaidOut(w, d);
    w' := SellFinalized(w3, d, since);
    SoldEarlier(w, w3, w', d, since);
  }

  lemma NotYetPaidOut(w: World, d: DealId)
    requires WorldInv(w) && d in w.deals.deals && PrePaid(w.deals.deals[d].status)
    ensures d !in w.billing.payouts && !FinalizedOn(w.deals, d)
  {
    WorldParts(w);
    NotFinalizedBeforePayment(w.deals, d);
    forall q | q in w.billing.payouts
      ensures q != d
    {
      assert PayoutSettled(w.billing, w.deals, q);
    }
  }

  // So is every deal that was confirmed and is not cancelled or paid yet.
  lemma SellConfirmed(w: World, d: DealId, since: Time) returns (w': World)
    requires Good(w) && d in w.deals.deals && w.deals.deals[d].confirmedAt.Some? && PostConfirmPrePaid(w.deals.deals[d].status)
    requires w.deals.deals[d].customer != w.deals.deals[d].supplier
    requires d in w.billing.invoices ==> w.billing.invoices[d].status != InvoiceExpired
    ensures Sold(w, w', d, since)
  {
    hide Good, Leads, Sold;
    if w.deals.deals[d].status == PaymentRequested {
      w' := SellRequested(w, d, since);
    } else {
      var w1 := RequestPaid(w, d, since);
      LeadsGood(w, w1, since);
      w' := SellRequested(w1, d, since);
      SoldEarlier(w, w1, w', d, since);
    }
  }

  lemma NothingBilled(w: World, d: DealId)
    requires WorldInv(w) && d in w.deals.deals && w.deals.deals[d].status == Pending
    ensures d !in w.billing.invoices
  {
    WorldParts(w);
    forall q | q in w.billing.invoices
      ensures q != d
    {
      assert InvoiceMatchesDeal(w.billing, w.deals, q);
    }
  }

  // And every deal that waits for its confirmation, unless a request for it is overdue.
  lemma SellPending(w: World, d: DealId, since: Time) returns (w': World)
    requires Good(w) && d in w.deals.deals && w.deals.deals[d].status == Pending
    requires w.deals.deals[d].customer != w.deals.deals[d].supplier && !ConfirmationOverdue(w.deals, d, since)
    ensures Sold(w, w', d, since)
  {
    hide Good, Leads, Sold, WorldInv, RequestsOk, DealsInv, BillingInv, ConfirmationOverdue;
    GoodParts(w);
    NothingBilled(w, d);
    var w1 := ConfirmPending(w, d, since);
    LeadsGood(w, w1, since);
    w' := SellConfirmed(w1, d, since);
    SoldEarlier(w, w1, w', d, since);
  }

  // ---------- the next candidate ----------

  // The current deal of an open selection, not confirmed yet.
  predicate CurrentPending(ds: Deals, d: DealId) {
    && d in ds.deals && ds.deals[d].status == Pending && ds.deals[d].auction in ds.selections
    && ds.selections[ds.deals[d].auction].deal == d && ds.selections[ds.deals[d].auction].status == SelectionDomain.Active
  }

  lemma RowAdvances(ds: Deals, ds': Deals, d: DealId)
    requires DealsAdvances(ds, ds') && d in ds.deals
    ensures d in ds'.deals && DealAdvances(ds.deals[d], ds'.deals[d]) && ds.outbox <= ds'.outbox
  {
  }

  // The cancelled current deal of an open selection whose cancellation was announced.
  predicate CurrentCancelled(ds: Deals, d: DealId, reason: CancelReason) {
    && d in ds.deals && ds.deals[d].status == Cancelled && ds.deals[d].auction in ds.selections
    && ds.selections[ds.deals[d].auction].deal == d && ds.selections[ds.deals[d].auction].status == SelectionDomain.Active
    && DealCancelled(d, reason) in ds.outbox
  }

  // The subscriber to its cancellation opens the next candidate's deal, if there is one.
  lemma PassOn(w: World, d: DealId, reason: CancelReason, newDeal: DealId, since: Time) returns (w': World)
    requires Good(w) && CurrentCancelled(w.deals, d, reason) && reason != PaymentTimeout && FreshDeal(w, newDeal)
    ensures Leads(w, w', since) && w'.billing == w.billing && w'.trading == w.trading && w'.deals.confirmations == w.deals.confirmations
    ensures MovedOn(w.deals, w'.deals, w.deals.deals[d].auction, newDeal)
  {
    hide Good, WorldInv, RequestsOk, BillingInv, Leads, DealsInv, HandleDealDeclined, FellBack, MovedOn;
    GoodParts(w);
    BuyerNamed(w.deals, d);
    DealsProgress.DeclineSucceedsIff(w.deals, d, newDeal);
    HandleDealDeclinedOutcome(w.deals, NO_ID, d, newDeal);
    w' := DoDelivery(w, CancelledDeal(DealCancelled(d, reason), newDeal), since);
    FellBackMovesOn(w.deals, w'.deals, w.deals.deals[d].auction, newDeal);
  }

  // An operator cancels the deal of a winner who does not confirm; the next candidate's deal is opened, if there is one.
  // The forfeiture is announced.
  lemma RejectWinner(w: World, d: DealId, newDeal: DealId, since: Time) returns (w': World)
    requires Good(w) && CurrentPending(w.deals, d) && FreshDeal(w, newDeal)
    ensures Leads(w, w', since) && w'.billing == w.billing && w'.trading == w.trading && w'.deals.confirmations == w.deals.confirmations
    ensures var a := w.deals.deals[d].auction;
            && WinnerRejected(d, a, w.deals.deals[d].customer, WinnerRejectedReason) in w'.deals.outbox
            && MovedOn(w.deals, w'.deals, a, newDeal)
  {
    hide Good, Leads, DealsInv, DealsAdvances;
    GoodParts(w);
    SupplierNamed(w.deals, d);
    DealKeyed(w.deals, d);
    BuyerNamed(w.deals, d);
    var row, a := w.deals.deals[d], w.deals.deals[d].auction;
    var w1 := DoCommand(w, CancelStep(d, WinnerRejectedReason, Some(System)), since);
    var cancelled, rejected := DealCancelled(d, WinnerRejectedReason), WinnerRejected(d, a, row.customer, WinnerRejectedReason);
    assert w1.deals.outbox == w.deals.outbox + [cancelled, rejected];
    assert cancelled in w1.deals.outbox && rejected in w1.deals.outbox;
    LeadsTo(w, w1, since);
    w' := PassOn(w1, d, WinnerRejectedReason, newDeal, since);
    LeadsOn(w, w1, w', since);
    LeadsTo(w1, w', since);
    RowAdvances(w1.deals, w'.deals, d);
  }

  // The seller cancels the deal instead: nothing is forfeited.
  lemma SellerCancels(w: World, d: DealId, since: Time) returns (w': World)
    requires Good(w) && CurrentPending(w.deals, d) && w.deals.deals[d].customer != w.deals.deals[d].supplier
    ensures Leads(w, w', since) && w'.billing == w.billing && w'.trading == w.trading && w'.deals.confirmations == w.deals.confirmations
    ensures CurrentCancelled(w'.deals, d, OtherReason(1)) && w'.deals.selections == w.deals.selections
    ensures w'.deals.deals == w.deals.deals[d := w.deals.deals[d].(status := Cancelled)]
    ensures w'.deals.outbox == w.deals.outbox + [DealCancelled(d, OtherReason(1))]
  {
    hide Good, Leads, DealsInv;
    GoodParts(w);
    SupplierNamed(w.deals, d);
    w' := DoCommand(w, CancelStep(d, OtherReason(1), Some(Party(w.deals.deals[d].supplier))), since);
    assert DealCancelled(d, OtherReason(1)) in w'.deals.outbox;
  }

  // The next candidate has a fresh deal, or there was none and the selection is exhausted.
  predicate MovedOn(ds: Deals, ds': Deals, a: AuctionId, newDeal: DealId) {
    && a in ds.selections && a in ds'.selections && ds'.deals.Keys <= ds.deals.Keys + {newDeal}
    && var sel, sel' := ds.selections[a], ds'.selections[a];
       && sel'.candidates == sel.candidates
       && if sel.currentIndex + 1 < |sel.candidates| then
            && sel'.currentIndex == sel.currentIndex + 1 && sel'.status == SelectionDomain.Active && sel'.deal == newDeal
            && 0 <= sel'.currentIndex && newDeal in ds'.deals && FreshRow(ds'.deals[newDeal], newDeal, sel')
            && sel'.auction == a && sel'.supplier == sel.supplier
          else sel'.status == SelectionDomain.Exhausted
  }

  lemma FellBackMovesOn(ds: Deals, ds': Deals, a: AuctionId, newDeal: DealId)
    requires DealsInv(ds) && a in ds.selections && ds.selections[a].status == SelectionDomain.Active && FellBack(ds, ds', a, newDeal)
    ensures MovedOn(ds, ds', a, newDeal)
  {
    hide DealsInv, Attempts;
    SelectionTrue(ds, a);
  }
}
