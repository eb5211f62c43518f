/**
 Which sales can still be completed. For every deal of every reachable state: some run ends with its seller paid if and
 only if nothing has closed the way for good, and what can close it is spelled out.
 */
module Sales {
  import opened Common
  import opened BillingInvariants
  import opened DealDomain
  import opened DealsInvariants
  import opened Settlement
  import opened SettlementInvariants
  import opened ConfirmationRuns
  import opened Announcements
  import opened Scripts
  import Wallet
  import DealsRules
  import SettlementSteps
  import DealsOutcomes

  // The way is open: a finalized sale whose payout has not failed; or a deal between two companies, not cancelled, that
  // waits for its confirmation without an overdue request, or was confirmed and has no expired invoice. A deal that was
  // given its contract before it was confirmed is none of these.
  ghost predicate Sellable(w: World, d: DealId, since: Time)
    requires d in w.deals.deals
  {
    var row := w.deals.deals[d];
    if FinalizedOn(w.deals, d) then d in w.billing.payouts ==> w.billing.payouts[d].status != Wallet.PayoutFailed
    else
      && row.customer != row.supplier && row.status != Cancelled
      && if row.confirmedAt.None? then row.status == Pending && !ConfirmationOverdue(w.deals, d, since)
         else d in w.billing.invoices ==> w.billing.invoices[d].status != Wallet.InvoiceExpired
  }

  // ---------- an open way leads to the payout ----------

  lemma ConfirmedIsPrePaid(ds: DealsRules.Deals, d: DealId)
    requires DealsInv(ds) && d in ds.deals && !FinalizedOn(ds, d) && ds.deals[d].status != Cancelled
    ensures ds.deals[d].confirmedAt.Some? ==> PostConfirmPrePaid(ds.deals[d].status)
    ensures ds.deals[d].status == Pending ==> ds.deals[d].confirmedAt.None?
    ensures ds.deals[d].status == PaymentRequested ==> ds.deals[d].confirmedAt.Some?
  {
    CurrentDeal(ds, d);
    hide DealsInv, Attempts;
  }

  lemma SellableSells(w: World, d: DealId, since: Time) returns (w': World)
    requires Good(w) && d in w.deals.deals && Sellable(w, d, since)
    ensures Sold(w, w', d, since)
  {
    hide Good, Sold, FinalizedOn, ConfirmationOverdue, WorldInv, RequestsOk, DealsInv, BillingInv, DealsAnnounced, ReceiptsAnnounced;
    GoodParts(w);
    if FinalizedOn(w.deals, d) {
      w' := SellFinalized(w, d, since);
    } else {
      ConfirmedIsPrePaid(w.deals, d);
      if w.deals.deals[d].confirmedAt.None? {
        w' := SellPending(w, d, since);
      } else {
        w' := SellConfirmed(w, d, since);
      }
    }
  }

  // ---------- a closed way stays closed ----------

  lemma FailedStaysFailed(w: World, s: Step, d: DealId, since: Time)
    requires Good(w) && d in w.deals.deals && !Sellable(w, d, since) && FinalizedOn(w.deals, d)
    ensures d in After(w, s).deals.deals && !Sellable(After(w, s), d, since)
  {
    hide Good, WorldInv, After, ConfirmationOverdue;
    StepKeepsGood(w, s);
    AdvancesInDeals(w, After(w, s));
    SettlementSteps.FinalizedStays(w.deals, After(w, s).deals, d);
    hide DealsAdvances, FinalizedOn;
    assert PayoutAdvances(w.billing.payouts[d], After(w, s).billing.payouts[d]);
  }

  // A sale whose way is closed is never finalized.
  lemma StaysUnfinalized(w: World, s: Step, d: DealId, since: Time)
    requires Good(w) && d in w.deals.deals && !Sellable(w, d, since) && !FinalizedOn(w.deals, d)
    ensures !FinalizedOn(After(w, s).deals, d)
  {
    hide Good, WorldInv, DealsInv, BillingInv, RequestsOk, DealsAnnounced, ReceiptsAnnounced, After, FinalizedOn;
    GoodParts(w);
    if FinalizedOn(After(w, s).deals, d) {
      StepFinalizes(w, s, d);
      ConfirmedIsPrePaid(w.deals, d);
      assert false;
    }
  }

  // A request that is overdue keeps its deal from being confirmed.
  lemma OverdueStaysUnconfirmed(w: World, s: Step, d: DealId, since: Time)
    requires Good(w) && d in w.deals.deals && ConfirmationOverdue(w.deals, d, since) && NotBefore(s, since)
    ensures !Confirms(w, s, d) && ConfirmationOverdue(After(w, s).deals, d, since)
  {
    hide Good, WorldInv, DealsInv, BillingInv, RequestOk, DealsAnnounced, ReceiptsAnnounced, After;
    GoodParts(w);
    var c :| Waiting(w.deals, c) && w.deals.confirmations[c].deal == d && w.deals.confirmations[c].stage == StageConfirmed
             && w.deals.confirmations[c].ExpiredAt(since);
    assert forall q | Waiting(w.deals, q) && w.deals.confirmations[q].deal == d && w.deals.confirmations[q].stage == StageConfirmed :: q == c;
    hide RequestsOk;
    StepKeepsOverdue(w, s, c, since);
    assert Waiting(After(w, s).deals, c);
  }

  lemma ConfirmationStays(w: World, s: Step, d: DealId)
    requires Good(w) && d in w.deals.deals && (w.deals.deals[d].status != Pending || !Confirms(w, s, d))
    ensures var ds' := After(w, s).deals;
            && d in ds'.deals && ds'.deals[d].confirmedAt == w.deals.deals[d].confirmedAt
            && ds'.deals[d].customer == w.deals.deals[d].customer && ds'.deals[d].supplier == w.deals.deals[d].supplier
            && Rank(w.deals.deals[d].status) <= Rank(ds'.deals[d].status)
  {
    hide Good, WorldInv, DealsInv, BillingInv, RequestsOk, DealsAnnounced, ReceiptsAnnounced, After, Confirms;
    GoodParts(w);
    StepKeepsGood(w, s);
    AdvancesInDeals(w, After(w, s));
    RowAdvances(w.deals, After(w, s).deals, d);
    hide DealsAdvances;
    if After(w, s).deals.deals[d].confirmedAt != w.deals.deals[d].confirmedAt {
      StepConfirms(w, s, d);
    }
  }

  lemma ExpiredStaysExpired(w: World, s: Step, d: DealId)
    requires Good(w) && d in w.billing.invoices && w.billing.invoices[d].status == Wallet.InvoiceExpired
    ensures d in After(w, s).billing.invoices && After(w, s).billing.invoices[d].status == Wallet.InvoiceExpired
  {
    hide Good, After, DealsAdvances;
    StepKeepsGood(w, s);
    AdvancesInDeals(w, After(w, s));
    assert InvoiceAdvances(w.billing.invoices[d], After(w, s).billing.invoices[d]);
  }

  lemma StepKeepsUnsellable(w: World, s: Step, d: DealId, since: Time)
    requires Good(w) && d in w.deals.deals && !Sellable(w, d, since) && NotBefore(s, since)
    ensures d in After(w, s).deals.deals && !Sellable(After(w, s), d, since)
  {
    hide Good, WorldInv, DealsInv, BillingInv, RequestsOk, DealsAnnounced, ReceiptsAnnounced, After, FinalizedOn, ConfirmationOverdue,
         Confirms, NotBefore;
    if FinalizedOn(w.deals, d) {
      FailedStaysFailed(w, s, d, since);
    } else {
      GoodParts(w);
      StaysUnfinalized(w, s, d, since);
      var row := w.deals.deals[d];
      if row.status != Cancelled {
        ConfirmedIsPrePaid(w.deals, d);
      }
      if row.status == Pending && ConfirmationOverdue(w.deals, d, since) {
        OverdueStaysUnconfirmed(w, s, d, since);
      }
      UnsellableStays(w, s, d, since);
    }
  }

  // The same for a deal that is not finalized, by what closes its way.
  lemma UnsellableStays(w: World, s: Step, d: DealId, since: Time)
    requires Good(w) && d in w.deals.deals && !Sellable(w, d, since) && !FinalizedOn(w.deals, d) && !FinalizedOn(After(w, s).deals, d)
    requires var row := w.deals.deals[d];
             && (row.status == Pending ==> row.confirmedAt.None?)
             && (row.status == Pending && ConfirmationOverdue(w.deals, d, since) ==>
                   !Confirms(w, s, d) && ConfirmationOverdue(After(w, s).deals, d, since))
    ensures d in After(w, s).deals.deals && !Sellable(After(w, s), d, since)
  {
    hide Good, After, FinalizedOn, ConfirmationOverdue, Confirms;
    var row := w.deals.deals[d];
    if row.status == Pending && !ConfirmationOverdue(w.deals, d, since) {
      PartiesStay(w, s, d);
    } else {
      ConfirmationStays(w, s, d);
      if d in w.billing.invoices && w.billing.invoices[d].status == Wallet.InvoiceExpired {
        ExpiredStaysExpired(w, s, d);
      }
    }
  }

  lemma PartiesStay(w: World, s: Step, d: DealId)
    requires Good(w) && d in w.deals.deals
    ensures d in After(w, s).deals.deals
    ensures var row, row' := w.deals.deals[d], After(w, s).deals.deals[d]; row'.customer == row.customer && row'.supplier == row.supplier
  {
    hide Good, After;
    StepKeepsGood(w, s);
    AdvancesInDeals(w, After(w, s));
    RowAdvances(w.deals, After(w, s).deals, d);
  }

  lemma {:induction false} UnsellableForEver(w: World, steps: seq<Step>, d: DealId, since: Time)
    requires Good(w) && d in w.deals.deals && !Sellable(w, d, since) && AnswersFrom(steps, since)
    ensures d in Run(w, steps).deals.deals && !Sellable(Run(w, steps), d, since)
  {
    if steps != [] {
      hide Good, After, Sellable;
      var init := steps[..|steps| - 1];
      UnsellableForEver(w, init, d, since);
      RunKeepsGood(w, init);
      StepKeepsUnsellable(Run(w, init), steps[|steps| - 1], d, since);
    }
  }

  lemma PaidOutIsSellable(w: World, d: DealId, since: Time)
    requires Good(w) && d in w.deals.deals && PaidOut(w.billing, d)
    ensures Sellable(w, d, since)
  {
    hide Good, WorldInv, DealsInv, BillingInv, FinalizedOn, ConfirmationOverdue;
    GoodParts(w);
    WorldParts(w);
    assert PayoutSettled(w.billing, w.deals, d);
  }

  // Main theorem: the seller of a deal can still be paid if and only if its way is open.
  lemma SaleCanCompleteIff(w: World, d: DealId, since: Time)
    requires Good(w) && d in w.deals.deals
    ensures (exists steps: seq<Step> | AnswersFrom(steps, since) :: PaidOut(Run(w, steps).billing, d)) <==> Sellable(w, d, since)
  {
    hide Good, Sellable, Run, Sold, AnswersFrom;
    if Sellable(w, d, since) {
      var w' := SellableSells(w, d, since);
      SoldInRun(w, w', d, since);
    }
    forall steps: seq<Step> | AnswersFrom(steps, since) && PaidOut(Run(w, steps).billing, d)
      ensures Sellable(w, d, since)
    {
      RunKeepsGood(w, steps);
      if !Sellable(w, d, since) {
        UnsellableForEver(w, steps, d, since);
        PaidOutIsSellable(Run(w, steps), d, since);
      }
    }
  }

  lemma SoldInRun(w: World, w': World, d: DealId, since: Time)
    requires Sold(w, w', d, since)
    ensures exists steps: seq<Step> | AnswersFrom(steps, since) :: PaidOut(Run(w, steps).billing, d)
  {
    hide Good, SettlementSteps.Advances, Run, AnswersFrom;
    var steps :| AnswersFrom(steps, since) && Run(w, steps) == w';
    assert PaidOut(Run(w, steps).billing, d);
  }

  // ---------- a contract before the confirmation ----------

  // A deal that was given its contract before it was confirmed; or what becomes of it.
  predicate ContractCameFirst(row: DealRow) {
    row.confirmedAt.None? && row.status in {ContractPrepared, ContractSigned, Cancelled}
  }

  // Nothing keeps anyone from preparing the contract of a deal that is not confirmed yet.
  lemma ContractCanComeFirst(ds: DealsRules.Deals, d: DealId, number: nat, now: Time)
    requires DealsInv(ds) && d in ds.deals && ds.deals[d].status == Pending
    ensures DealsRules.PrepareContract(ds, d, number, now).Ok?
    ensures var ds' := DealsRules.PrepareContract(ds, d, number, now).value; d in ds'.deals && ContractCameFirst(ds'.deals[d])
  {
    DealsOutcomes.DealFits(ds, d);
    DealsOutcomes.DealKeyed(ds, d);
    CurrentDeal(ds, d);
    SupplierNamed(ds, d);
    hide DealsInv, Attempts;
  }

  lemma StepKeepsContractFirst(w: World, s: Step, d: DealId)
    requires Good(w) && d in w.deals.deals && ContractCameFirst(w.deals.deals[d])
    ensures d in After(w, s).deals.deals && ContractCameFirst(After(w, s).deals.deals[d])
  {
    hide Good, WorldInv, DealsInv, BillingInv, RequestsOk, DealsAnnounced, ReceiptsAnnounced, After, Confirms, FinalizedOn;
    ConfirmationStays(w, s, d);
    StepKeepsGood(w, s);
    GoodParts(After(w, s));
    UnconfirmedStatus(After(w, s).deals, d);
  }

  lemma UnconfirmedStatus(ds: DealsRules.Deals, d: DealId)
    requires DealsInv(ds) && d in ds.deals && ds.deals[d].confirmedAt.None?
    ensures ds.deals[d].status in {Pending, ContractPrepared, ContractSigned, Cancelled} && !FinalizedOn(ds, d)
  {
    DealsParts(ds);
    var a := ds.deals[d].auction;
    assert DealOk(ds, d) && SelectionOk(ds, a);
    if ds.deals[d].status != Cancelled {
      CurrentDeal(ds, d);
    }
    hide DealsInv;
  }

  // All that is left for such a deal is to be cancelled: it is never paid, whatever happens.
  lemma {:induction false} ContractFirstIsNeverPaid(w: World, steps: seq<Step>, d: DealId)
    requires Good(w) && d in w.deals.deals && ContractCameFirst(w.deals.deals[d])
    ensures var w' := Run(w, steps); d in w'.deals.deals && ContractCameFirst(w'.deals.deals[d]) && d !in w'.billing.payouts
  {
    hide Good, After;
    if steps != [] {
      var init := steps[..|steps| - 1];
      ContractFirstIsNeverPaid(w, init, d);
      RunKeepsGood(w, init);
      StepKeepsContractFirst(Run(w, init), steps[|steps| - 1], d);
    }
    RunKeepsGood(w, steps);
    UnconfirmedHasNoPayout(Run(w, steps), d);
  }

  lemma UnconfirmedHasNoPayout(w: World, d: DealId)
    requires Good(w) && d in w.deals.deals && w.deals.deals[d].confirmedAt.None?
    ensures d !in w.billing.payouts
  {
    hide Good, DealsInv, BillingInv, WorldInv, FinalizedOn;
    GoodParts(w);
    WorldParts(w);
    UnconfirmedStatus(w.deals, d);
    forall q | q in w.billing.payouts
      ensures q != d
    {
      assert PayoutSettled(w.billing, w.deals, q);
    }
  }
}
