/**
 A deal cancelled with a comment that reads like a payment timeout: its subscriber takes it to have fallen back already.
 Such an auction is stranded on the cancelled deal until an operator declines it, and exactly until then.
 */
module StuckDeals {
  import opened Common
  import opened DealDomain
  import opened DealsRules
  import opened DealsInvariants
  import opened DealsOutcomes
  import opened DealsProgress
  import opened Settlement
  import opened SettlementInvariants
  import SelectionDomain
  import SettlementSteps
  import SettlementRuns
  import BillingRules
  import SettlementTheorems

  // The current deal of an open selection is cancelled, and no cancellation of it makes the subscriber fall back.
  predicate Stranded(ds: Deals, d: DealId) {
    && d in ds.deals && ds.deals[d].status == Cancelled && ds.deals[d].auction in ds.selections
    && ds.selections[ds.deals[d].auction].deal == d && ds.selections[ds.deals[d].auction].status in {SelectionDomain.Active, SelectionDomain.ConfirmedPendingPayment}
    && (forall e | e in ds.outbox && e.DealCancelled? && e.deal == d :: e.reason == PaymentTimeout)
  }

  // The command to decline deal d of auction a. The operator names the auction and may name the deal; the use case also
  // takes the deal alone.
  predicate Declines(s: Step, a: AuctionId, d: DealId) {
    && s.Command? && s.c.DeclineStep?
    && ((s.c.a == a && s.c.d in {NO_ID, d}) || (s.c.a == NO_ID && s.c.d == d))
  }

  // A change that leaves the selection of deal d alone and does not cancel d.
  predicate Spares(ds: Deals, ds': Deals, d: DealId)
    requires d in ds.deals && ds.deals[d].auction in ds.selections
  {
    && ds.deals[d].auction in ds'.selections && ds'.selections[ds.deals[d].auction] == ds.selections[ds.deals[d].auction]
    && (forall e | e in ds'.outbox && e.DealCancelled? && e.deal == d :: e in ds.outbox)
  }

  // ---------- every step but the operator's spares a stranded deal ----------

  lemma CancellationSpares(ds: Deals, ds': Deals, q: DealId, reason: CancelReason, actor: Actor, earlier: seq<DealEvent>, d: DealId)
    requires DealsInv(ds) && Stranded(ds, d) && CancelledBy(ds, ds', q, reason, actor, earlier)
    ensures Spares(ds, ds', d)
  {
    hide DealsInv, DealRow.Cancel;
    DealKeyed(ds, q);
    CancelIsAllowed(ds.deals[q], reason, actor);
    CancelEvents(ds.deals[q], reason, actor);
  }

  lemma ApprovalSpares(ds: Deals, q: DealId, c: ConfirmationId, company: CompanyId, user: UserId, now: Time, d: DealId)
    requires DealsInv(ds) && Stranded(ds, d) && ApproveDealConfirmation(ds, q, c, company, user, now).Ok?
    ensures Spares(ds, ApproveDealConfirmation(ds, q, c, company, user, now).value, d)
  {
    hide DealsInv, DealRow.Cancel, CancelledBy;
    ApproveCases(ds, q, c, company, user, now);
    hide ApproveDealConfirmation;
    var request := ds.confirmations[c];
    if request.stage == StageCancelled {
      CancellationSpares(ds, ApproveDealConfirmation(ds, q, c, company, user, now).value, q,
                         if request.comment == NoReason then DEFAULT_CANCEL_REASON else request.comment,
                         Party(request.requestedBy), [ConfirmationApproved(c, q)], d);
    }
  }

  lemma NoBlankDeal(ds: Deals)
    requires DealsInv(ds)
    ensures NO_ID !in ds.deals
  {
    DealsParts(ds);
    assert NO_ID in ds.deals ==> DealOk(ds, NO_ID);
  }

  lemma DeclineSpares(ds: Deals, a: AuctionId, q: DealId, newDeal: DealId, d: DealId)
    requires DealsInv(ds) && Stranded(ds, d) && newDeal != NO_ID && HandleDealDeclined(ds, a, q, newDeal).Ok?
    requires !Declines(Command(DeclineStep(a, q, newDeal)), ds.deals[d].auction, d)
    ensures Spares(ds, HandleDealDeclined(ds, a, q, newDeal).value, d)
  {
    hide DealsInv, HandleDealDeclined, Fallback;
    NoBlankDeal(ds);
    var resolved := if a == NO_ID && q in ds.deals then ds.deals[q].auction else a;
    HandleDealDeclinedFallsBack(ds, a, q, newDeal);
    SettlementTheorems.SelectionShaped(ds, resolved);
    FallbackValue(ds, resolved, newDeal);
  }

  lemma ExpirySpares(ds: Deals, q: DealId, a: AuctionId, buyer: CompanyId, newDeal: DealId, d: DealId)
    requires DealsInv(ds) && Stranded(ds, d) && newDeal != NO_ID && HandleDealInvoiceExpired(ds, q, a, buyer, newDeal).Ok?
    ensures Spares(ds, HandleDealInvoiceExpired(ds, q, a, buyer, newDeal).value, d)
  {
    hide DealsInv, Fallback, CancelledBy;
    HandleDealInvoiceExpiredCases(ds, q, a, buyer, newDeal);
    DealKeyed(ds, q);
    hide HandleDealInvoiceExpired;
    if HandleDealInvoiceExpired(ds, q, a, buyer, newDeal) != Ok(ds) {
      SettlementTheorems.SelectionShaped(ds, a);
      FallbackValue(TimedOut(ds, q), a, newDeal);
    }
  }

  lemma CommandSpares(ds: Deals, s: DealsStep, d: DealId)
    requires DealsInv(ds) && Stranded(ds, d) && ApplyCommand(ds, s).Ok? && !Declines(Command(s), ds.deals[d].auction, d)
    requires s.DeclineStep? ==> s.newDeal != NO_ID
    ensures Spares(ds, ApplyCommand(ds, s).value, d)
  {
    hide DealsInv, HandleDealDeclined, ApproveDealConfirmation, DealRow.Cancel;
    match s
    case DeclineStep(a, q, newDeal) => DeclineSpares(ds, a, q, newDeal, d);
    case CancelStep(q, reason, actor) =>
      CancelForfeits(ds.deals[q], reason, actor.value);
      assert [] + ds.deals[q].Cancel(reason, actor.value).value.events == ds.deals[q].Cancel(reason, actor.value).value.events;
      CancellationSpares(ds, ApplyCommand(ds, s).value, q, reason, actor.value, [], d);
    case ApproveStep(q, c, company, user, now) => ApprovalSpares(ds, q, c, company, user, now, d);
    case _ =>
  }

  lemma OpeningSpares(ds: Deals, a: AuctionId, winners: seq<CompanyId>, finalPrice: int, wonAt: Time, newDeal: DealId, d: DealId)
    requires DealsInv(ds) && Stranded(ds, d) && CreateDealSelection(ds, a, winners, finalPrice, wonAt, newDeal).Ok?
    ensures Spares(ds, CreateDealSelection(ds, a, winners, finalPrice, wonAt, newDeal).value, d)
  {
    hide DealsInv;
    if a in ds.selections {
      SettlementTheorems.SelectionShaped(ds, a);
    }
  }

  lemma CancelledDealSpares(ds: Deals, e: DealEvent, newDeal: DealId, d: DealId)
    requires DealsInv(ds) && Stranded(ds, d) && e in ds.outbox && e.DealCancelled? && newDeal != NO_ID
    requires OnDealCancelled(ds, e.deal, e.reason, newDeal).Ok?
    ensures Spares(ds, OnDealCancelled(ds, e.deal, e.reason, newDeal).value, d)
  {
    hide DealsInv, HandleDealDeclined;
    BuyerNamed(ds, d);
    if e.reason != PaymentTimeout && HandleDealDeclined(ds, NO_ID, e.deal, newDeal).Ok? {
      DeclineSpares(ds, NO_ID, e.deal, newDeal, d);
    }
  }

  lemma PaymentSpares(w: World, e: BillingRules.BillingEvent, d: DealId)
    requires WorldInv(w) && Stranded(w.deals, d) && e in w.billing.outbox && e.DealInvoicePaid?
    requires HandleDealInvoicePaid(w.deals, e.deal, e.auction, e.buyer, e.goods, e.feeDue, e.amount).Ok?
    ensures Spares(w.deals, HandleDealInvoicePaid(w.deals, e.deal, e.auction, e.buyer, e.goods, e.feeDue, e.amount).value, d)
  {
    hide DealsInv, HandleDealInvoicePaid, PaidFor;
    WorldParts(w);
    SettlementRuns.PaidInvoiceOutcome(w, e);
    if w.deals.deals[e.deal].status == PaymentRequested {
      PaidForSpares(w.deals, HandleDealInvoicePaid(w.deals, e.deal, e.auction, e.buyer, e.goods, e.feeDue, e.amount).value,
                    e.deal, e.goods, e.feeDue, d);
    } else {
      SparesItself(w.deals, d);
    }
  }

  lemma PaidForSpares(ds: Deals, ds': Deals, q: DealId, goods: int, feeDue: int, d: DealId)
    requires DealsInv(ds) && Stranded(ds, d) && PaidFor(ds, ds', q, goods, feeDue) && ds.deals[q].status == PaymentRequested
    ensures Spares(ds, ds', d)
  {
    hide DealsInv;
    CurrentDeal(ds, q);
  }

  lemma SparesItself(ds: Deals, d: DealId)
    requires Stranded(ds, d)
    ensures Spares(ds, ds, d)
  {
  }

  predicate ForBilling(v: Delivery) {
    v.ReleaseLosers? || v.RejectedWinner? || v.RequestedPayment? || v.FinalizedSelection?
  }

  lemma BillingDeliveryLeavesDeals(w: World, v: Delivery)
    requires Emitted(w, v) && ApplyDelivery(w, v).Ok? && ForBilling(v)
    ensures ApplyDelivery(w, v).value.deals == w.deals
  {
    hide BillingRules.ReleaseAuctionDepositsExceptCandidates, BillingRules.CaptureAuctionDeposit, BillingRules.CreateDealInvoice, BillingRules.FinalizeAuction;
  }

  lemma DeliverySpares(w: World, v: Delivery, d: DealId)
    requires WorldInv(w) && Stranded(w.deals, d) && Enabled(w, Deliver(v)) && ApplyDelivery(w, v).Ok?
    ensures Spares(w.deals, ApplyDelivery(w, v).value.deals, d)
  {
    hide Stranded, Spares, DealsInv, WorldInv;
    WorldParts(w);
    if ForBilling(v) {
      BillingDeliveryLeavesDeals(w, v);
      NothingSpares(w.deals, d);
    } else {
      hide CreateDealSelection, OnDealCancelled, HandleDealInvoicePaid, HandleDealInvoiceExpired;
      match v
      case OpenSelection(won, newDeal) =>
        OpeningSpares(w.deals, won.event.auction, won.event.winners, won.event.finalPrice, won.at, newDeal, d);
      case CancelledDeal(e, newDeal) => CancelledDealSpares(w.deals, e, newDeal, d);
      case PaidInvoice(e) => PaymentSpares(w, e, d);
      case ExpiredInvoice(e, newDeal) => ExpirySpares(w.deals, e.deal, e.auction, e.buyer, newDeal, d);
    }
  }

  lemma NothingSpares(ds: Deals, d: DealId)
    requires Stranded(ds, d)
    ensures d in ds.deals && ds.deals[d].auction in ds.selections && Spares(ds, ds, d)
  {
  }

  lemma StepSpares(w: World, s: Step, d: DealId)
    requires WorldInv(w) && Stranded(w.deals, d) && !Declines(s, w.deals.deals[d].auction, d)
    ensures Spares(w.deals, After(w, s).deals, d)
  {
    hide ApplyCommand, ApplyDelivery, ApplyBilling, ApplyTrading, DealsInv;
    WorldParts(w);
    if Enabled(w, s) && Apply(w, s).Ok? {
      match s
      case Command(command) => CommandSpares(w.deals, command, d);
      case Deliver(v) => DeliverySpares(w, v, d);
      case Trade(t) => TradingLeavesDeals(w, t);
      case Pay(p) =>
    }
  }

  lemma TradingLeavesDeals(w: World, t: TradingStep)
    requires ApplyTrading(w, t).Ok?
    ensures ApplyTrading(w, t).value.deals == w.deals
  {
  }

  // ---------- until the operator declines it, and exactly then ----------

  lemma SparedStaysStranded(ds: Deals, ds': Deals, d: DealId)
    requires Stranded(ds, d) && DealsAdvances(ds, ds') && Spares(ds, ds', d)
    ensures Stranded(ds', d) && ds'.deals[d] == ds.deals[d]
    ensures ds'.selections[ds.deals[d].auction] == ds.selections[ds.deals[d].auction]
  {
    assert DealAdvances(ds.deals[d], ds'.deals[d]);
  }

  // Somewhere in the run the operator declines deal d of auction a.
  predicate DeclinedIn(w: World, steps: seq<Step>, a: AuctionId, d: DealId) {
    exists i | 0 <= i < |steps| :: Declines(steps[i], a, d) && Enabled(Run(w, steps[..i]), steps[i])
  }

  lemma DeclinedInLonger(w: World, steps: seq<Step>, a: AuctionId, d: DealId)
    requires steps != []
    ensures var n := |steps| - 1;
            DeclinedIn(w, steps, a, d)
            <==> DeclinedIn(w, steps[..n], a, d) || (Declines(steps[n], a, d) && Enabled(Run(w, steps[..n]), steps[n]))
  {
    hide Run, Declines, Enabled;
    var init := steps[..|steps| - 1];
    assert forall i | 0 <= i < |init| :: init[i] == steps[i] && init[..i] == steps[..i];
    if i :| 0 <= i < |steps| && Declines(steps[i], a, d) && Enabled(Run(w, steps[..i]), steps[i]) {
      if i < |init| {
        assert Declines(init[i], a, d) && Enabled(Run(w, init[..i]), init[i]);
      }
    }
    if i :| 0 <= i < |init| && Declines(init[i], a, d) && Enabled(Run(w, init[..i]), init[i]) {
      assert Declines(steps[i], a, d) && Enabled(Run(w, steps[..i]), steps[i]);
    }
  }

  lemma StepKeepsStranded(w: World, s: Step, d: DealId)
    requires WorldInv(w) && Stranded(w.deals, d) && !(Declines(s, w.deals.deals[d].auction, d) && Enabled(w, s))
    ensures var ds' := After(w, s).deals; var a := w.deals.deals[d].auction;
            Stranded(ds', d) && ds'.deals[d] == w.deals.deals[d] && ds'.selections[a] == w.deals.selections[a]
  {
    hide Spares, Stranded, DealsAdvances, Apply;
    if Enabled(w, s) {
      SettlementRuns.StepKeeps(w, s);
      StepSpares(w, s, d);
      SparedStaysStranded(w.deals, After(w, s).deals, d);
    }
  }

  // Over every run without the operator's decline the selection keeps the cancelled deal: nobody else is asked.
  lemma {:induction false} StrandedUntilDeclined(w: World, steps: seq<Step>, d: DealId)
    requires WorldInv(w) && Stranded(w.deals, d) && !DeclinedIn(w, steps, w.deals.deals[d].auction, d)
    ensures var ds' := Run(w, steps).deals; var a := w.deals.deals[d].auction;
            Stranded(ds', d) && ds'.deals[d] == w.deals.deals[d] && ds'.selections[a] == w.deals.selections[a]
  {
    if steps != [] {
      hide After, Stranded, DeclinedIn, Enabled, Declines;
      var a := w.deals.deals[d].auction;
      DeclinedInLonger(w, steps, a, d);
      StrandedUntilDeclined(w, steps[..|steps| - 1], d);
      SettlementRuns.RunKeeps(w, steps[..|steps| - 1]);
      StepKeepsStranded(Run(w, steps[..|steps| - 1]), steps[|steps| - 1], d);
    }
  }

  lemma StrandedIsNotPassed(w: World, d: DealId)
    requires WorldInv(w) && Stranded(w.deals, d)
    ensures !Passed(w.deals, d)
  {
    hide DealsInv, Passed;
    WorldParts(w);
    StillCurrent(w.deals, d);
  }

  // The operator's decline of a stranded deal always moves the auction on: to the next candidate, or to its end.
  lemma DeclineMovesOn(w: World, s: Step, d: DealId)
    requires WorldInv(w) && Stranded(w.deals, d) && Declines(s, w.deals.deals[d].auction, d) && Enabled(w, s)
    ensures Passed(After(w, s).deals, d) && FellBack(w.deals, After(w, s).deals, w.deals.deals[d].auction, s.c.newDeal)
  {
    hide WorldInv, DealsInv, HandleDealDeclined, Passed, FellBack, Continues;
    WorldParts(w);
    var ds, a := w.deals, w.deals.deals[d].auction;
    DeclineIsTheSame(ds, s.c.a, s.c.d, s.c.newDeal, d);
    DeclineSucceedsIff(ds, d, s.c.newDeal);
    HandleDealDeclinedOutcome(ds, NO_ID, d, s.c.newDeal);
    FellBackPasses(ds, HandleDealDeclined(ds, NO_ID, d, s.c.newDeal).value, a, s.c.newDeal, d);
  }

  // A decline may name the auction, its current deal, or both.
  lemma DeclineIsTheSame(ds: Deals, a: AuctionId, q: DealId, newDeal: DealId, d: DealId)
    requires DealsInv(ds) && Stranded(ds, d) && Declines(Command(DeclineStep(a, q, newDeal)), ds.deals[d].auction, d)
    ensures HandleDealDeclined(ds, a, q, newDeal) == HandleDealDeclined(ds, NO_ID, d, newDeal)
  {
    hide DealsInv, Fallback, ReopenForDecline;
    NoBlankDeal(ds);
    BuyerNamed(ds, d);
  }

  // So a run moves a stranded auction on if and only if the operator declines it somewhere in that run.
  lemma {:induction false} StrandedMovesOnIff(w: World, steps: seq<Step>, d: DealId)
    requires WorldInv(w) && Stranded(w.deals, d)
    ensures Passed(Run(w, steps).deals, d) <==> DeclinedIn(w, steps, w.deals.deals[d].auction, d)
  {
    var a := w.deals.deals[d].auction;
    hide After, Passed, Stranded, DeclinedIn, Declines, Enabled, SettlementSteps.Advances, DealsAdvances;
    if !DeclinedIn(w, steps, a, d) {
      StrandedUntilDeclined(w, steps, d);
      SettlementRuns.RunKeeps(w, steps);
      StrandedIsNotPassed(Run(w, steps), d);
    } else {
      DeclinedMovesOn(w, steps, d);
    }
  }

  lemma {:induction false} DeclinedMovesOn(w: World, steps: seq<Step>, d: DealId)
    requires WorldInv(w) && Stranded(w.deals, d) && DeclinedIn(w, steps, w.deals.deals[d].auction, d)
    ensures Passed(Run(w, steps).deals, d)
  {
    assert steps != [];
    var a, init, s := w.deals.deals[d].auction, steps[..|steps| - 1], steps[|steps| - 1];
    hide After, Passed, Stranded, DeclinedIn, Declines, Enabled;
    DeclinedInLonger(w, steps, a, d);
    SettlementRuns.RunKeeps(w, init);
    if DeclinedIn(w, init, a, d) {
      DeclinedMovesOn(w, init, d);
      SettlementRuns.StepKeeps(Run(w, init), s);
      PassedStays(Run(w, init).deals, After(Run(w, init), s).deals, d);
    } else {
      StrandedUntilDeclined(w, init, d);
      DeclineMovesOn(Run(w, init), s, d);
    }
  }
}
