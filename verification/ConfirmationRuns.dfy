/** Confirmation requests over whole runs: who can answer one, until when, and what an expired one blocks. */
module ConfirmationRuns {
  import opened Common
  import opened DealDomain
  import opened DealsRules
  import opened DealsInvariants
  import opened DealsOutcomes
  import opened Settlement
  import opened SettlementInvariants
  import SelectionDomain
  import SettlementRuns
  import DealsAnswers

  // ---------- what every stored request is like ----------

  // Filed by one party of a stored deal and addressed to the other; never stored as expired.
  predicate RequestOk(ds: Deals, c: ConfirmationId)
    requires c in ds.confirmations
  {
    var r := ds.confirmations[c];
    && c != NO_ID && r.id == c && r.status != Expired && r.stage != StagePaid
    && r.deal != NO_ID && r.deal in ds.deals && ds.deals[r.deal].id == r.deal
    && r.counterparty != NO_ID && r.requestedBy != r.counterparty
    && {r.requestedBy, r.counterparty} == {ds.deals[r.deal].customer, ds.deals[r.deal].supplier}
  }

  predicate Waiting(ds: Deals, c: ConfirmationId) {
    c in ds.confirmations && ds.confirmations[c].status == AwaitingApproval
  }

  // No request for the stage of the deal is waiting: the check that a new request has to pass.
  ghost predicate Free(ds: Deals, d: DealId, stage: Stage) {
    forall c | Waiting(ds, c) :: ds.confirmations[c].deal != d || ds.confirmations[c].stage != stage
  }

  lemma FreeMeansNonePending(ds: Deals, d: DealId, stage: Stage)
    ensures Free(ds, d, stage) <==> !HasPendingConfirmation(ds, d, stage)
  {
    forall c | Waiting(ds, c) && ds.confirmations[c].deal == d && ds.confirmations[c].stage == stage
      ensures HasPendingConfirmation(ds, d, stage)
    {
    }
    forall c | c in ds.confirmations && ds.confirmations[c].status == AwaitingApproval
      ensures Waiting(ds, c)
    {
    }
  }

  ghost predicate RequestsOk(ds: Deals) {
    && (forall c | c in ds.confirmations :: RequestOk(ds, c))
    && (forall c1, c2 | Waiting(ds, c1) && Waiting(ds, c2) && ds.confirmations[c1].deal == ds.confirmations[c2].deal
                        && ds.confirmations[c1].stage == ds.confirmations[c2].stage :: c1 == c2)
  }

  // ---------- what a step does to the requests ----------

  // A new request for a free stage of a stored deal, from one of its parties to the other.
  ghost predicate NewRequest(ds: Deals, ds': Deals, c: ConfirmationId) {
    && c in ds'.confirmations && c !in ds.confirmations && ds'.confirmations == ds.confirmations[c := ds'.confirmations[c]]
    && var r := ds'.confirmations[c];
       && r.status == AwaitingApproval && Free(ds, r.deal, r.stage)
       && c != NO_ID && r.id == c && r.stage != StagePaid && r.deal != NO_ID && r.deal in ds.deals && ds.deals[r.deal].id == r.deal
       && r.counterparty != NO_ID && r.requestedBy != r.counterparty
       && {r.requestedBy, r.counterparty} == {ds.deals[r.deal].customer, ds.deals[r.deal].supplier}
  }

  // An answer to a waiting request.
  predicate NewAnswer(ds: Deals, ds': Deals, c: ConfirmationId) {
    && Waiting(ds, c) && c in ds'.confirmations && ds'.confirmations == ds.confirmations[c := ds'.confirmations[c]]
    && ds'.confirmations[c] in {ds.confirmations[c].(status := Approved), ds.confirmations[c].(status := Rejected)}
  }

  ghost predicate Filed(ds: Deals, ds': Deals) {
    || ds'.confirmations == ds.confirmations
    || (exists c :: NewRequest(ds, ds', c))
    || (exists c :: NewAnswer(ds, ds', c))
  }

  lemma FallbackKeepsConfirmations(ds: Deals, sel: SelectionDomain.SelectionRow, a: AuctionId, newDeal: DealId, earlier: seq<DealEvent>)
    requires Fallback(ds, sel, a, newDeal, earlier).Ok?
    ensures Fallback(ds, sel, a, newDeal, earlier).value.confirmations == ds.confirmations
  {
  }

  lemma DeclineKeepsConfirmations(ds: Deals, a: AuctionId, d: DealId, newDeal: DealId)
    requires HandleDealDeclined(ds, a, d, newDeal).Ok?
    ensures HandleDealDeclined(ds, a, d, newDeal).value.confirmations == ds.confirmations
  {
    var resolved := if a == NO_ID && d != NO_ID then ds.deals[d].auction else a;
    var sel := ReopenForDecline(ds, ds.selections[resolved]).value;
    hide Fallback, ReopenForDecline;
    FallbackKeepsConfirmations(ds, sel, resolved, newDeal, []);
  }

  lemma ExpiryKeepsConfirmations(ds: Deals, d: DealId, a: AuctionId, buyer: CompanyId, newDeal: DealId)
    requires HandleDealInvoiceExpired(ds, d, a, buyer, newDeal).Ok?
    ensures HandleDealInvoiceExpired(ds, d, a, buyer, newDeal).value.confirmations == ds.confirmations
  {
    hide Fallback;
    if d in ds.deals && a in ds.selections {
      var row, sel := ds.deals[d], ds.selections[a];
      var cancelled, reopened := row.Cancel(PaymentTimeout, System), sel.ReopenAfterPaymentTimeout(row.id);
      if cancelled.Ok? && reopened.Ok? {
        var cancelling := ds.(deals := ds.deals[d := cancelled.value.row]);
        if Fallback(cancelling, reopened.value, a, newDeal, cancelled.value.events).Ok? {
          FallbackKeepsConfirmations(cancelling, reopened.value, a, newDeal, cancelled.value.events);
        }
      }
    }
  }

  lemma RequestedRow(row: DealRow, c: ConfirmationId, stage: Stage, company: CompanyId, user: UserId, comment: CancelReason,
                     expiresAt: Option<Time>)
    requires row.RequestConfirmation(c, stage, company, user, comment, expiresAt).Ok?
    ensures var r := row.RequestConfirmation(c, stage, company, user, comment, expiresAt).value;
            && r.status == AwaitingApproval && c != NO_ID && r.id == c && r.stage == stage != StagePaid
            && r.deal == row.id && row.id != NO_ID && r.counterparty != NO_ID && r.requestedBy != r.counterparty
            && {r.requestedBy, r.counterparty} == {row.customer, row.supplier}
  {
  }

  lemma RequestFiles(ds: Deals, d: DealId, c: ConfirmationId, stage: Stage, company: CompanyId, user: UserId,
                     comment: CancelReason, expiresAt: Option<Time>)
    requires DealsInv(ds) && c !in ds.confirmations
    requires RequestDealConfirmation(ds, d, c, stage, company, user, comment, expiresAt).Ok?
    ensures Filed(ds, RequestDealConfirmation(ds, d, c, stage, company, user, comment, expiresAt).value)
  {
    hide DealsInv, Free, HasPendingConfirmation, DealRow.RequestConfirmation;
    DealKeyed(ds, d);
    FreeMeansNonePending(ds, d, stage);
    RequestedRow(ds.deals[d], c, stage, company, user, comment, expiresAt);
    assert NewRequest(ds, RequestDealConfirmation(ds, d, c, stage, company, user, comment, expiresAt).value, c);
  }

  lemma ApproveFiles(ds: Deals, d: DealId, c: ConfirmationId, company: CompanyId, user: UserId, now: Time)
    requires DealsInv(ds) && ApproveDealConfirmation(ds, d, c, company, user, now).Ok?
    ensures Filed(ds, ApproveDealConfirmation(ds, d, c, company, user, now).value)
  {
    hide DealsInv, Free, ConfirmedBy, CancelledBy, Turns;
    ApproveCases(ds, d, c, company, user, now);
    hide ApproveDealConfirmation;
    assert NewAnswer(ds, ApproveDealConfirmation(ds, d, c, company, user, now).value, c);
  }

  lemma CommandFiles(ds: Deals, s: DealsStep)
    requires DealsInv(ds) && ApplyCommand(ds, s).Ok?
    requires s.RequestConfirmationStep? ==> s.c !in ds.confirmations
    ensures Filed(ds, ApplyCommand(ds, s).value)
  {
    hide DealsInv, HandleDealDeclined, RequestDealConfirmation, ApproveDealConfirmation, Free;
    match s
    case DeclineStep(a, d, newDeal) => DeclineKeepsConfirmations(ds, a, d, newDeal);
    case RequestConfirmationStep(d, c, stage, company, user, comment, expiresAt) =>
      RequestFiles(ds, d, c, stage, company, user, comment, expiresAt);
    case ApproveStep(d, c, company, user, now) => ApproveFiles(ds, d, c, company, user, now);
    case RejectStep(_, c, _, _, _) => assert NewAnswer(ds, ApplyCommand(ds, s).value, c);
    case _ =>
  }

  lemma DeliveryKeepsConfirmations(w: World, v: Delivery)
    requires Emitted(w, v) && ApplyDelivery(w, v).Ok?
    ensures ApplyDelivery(w, v).value.deals.confirmations == w.deals.confirmations
  {
    hide HandleDealDeclined, HandleDealInvoiceExpired;
    if v.CancelledDeal? && v.event.reason != PaymentTimeout && HandleDealDeclined(w.deals, NO_ID, v.event.deal, v.newDeal).Ok? {
      DeclineKeepsConfirmations(w.deals, NO_ID, v.event.deal, v.newDeal);
    } else if v.ExpiredInvoice? {
      ExpiryKeepsConfirmations(w.deals, v.answer.deal, v.answer.auction, v.answer.buyer, v.newDeal);
    }
  }

  lemma StepFiles(w: World, s: Step)
    requires WorldInv(w)
    ensures Filed(w.deals, After(w, s).deals)
  {
    hide ApplyCommand, ApplyDelivery, ApplyBilling, ApplyTrading, Filed, DealsInv;
    WorldParts(w);
    FilesNothing(w.deals, w.deals);
    if Enabled(w, s) && Apply(w, s).Ok? {
      match s
      case Command(command) => CommandFiles(w.deals, command);
      case Deliver(v) =>
        DeliveryKeepsConfirmations(w, v);
        FilesNothing(w.deals, After(w, s).deals);
      case Trade(t) => TradingKeepsDeals(w, t);
      case Pay(p) =>
    }
  }

  lemma FilesNothing(ds: Deals, ds': Deals)
    requires ds'.confirmations == ds.confirmations
    ensures Filed(ds, ds')
  {
  }

  lemma TradingKeepsDeals(w: World, t: TradingStep)
    requires ApplyTrading(w, t).Ok?
    ensures ApplyTrading(w, t).value.deals == w.deals
  {
  }

  // ---------- every run ----------

  lemma RequestStaysOk(ds: Deals, ds': Deals, c: ConfirmationId)
    requires c in ds.confirmations && RequestOk(ds, c) && DealsAdvances(ds, ds') && c in ds'.confirmations
    requires ds'.confirmations[c] == ds.confirmations[c].(status := ds'.confirmations[c].status)
    requires ds'.confirmations[c].status != Expired
    ensures RequestOk(ds', c)
  {
    assert DealAdvances(ds.deals[ds.confirmations[c].deal], ds'.deals[ds.confirmations[c].deal]);
  }

  lemma NewRequestKeeps(ds: Deals, ds': Deals, c: ConfirmationId)
    requires RequestsOk(ds) && DealsAdvances(ds, ds') && NewRequest(ds, ds', c)
    ensures RequestsOk(ds')
  {
    forall q | q in ds'.confirmations
      ensures RequestOk(ds', q)
    {
      if q == c {
        var d := ds'.confirmations[c].deal;
        assert DealAdvances(ds.deals[d], ds'.deals[d]);
      } else {
        hide DealsAdvances;
        RequestStaysOk(ds, ds', q);
      }
    }
    hide DealsAdvances, RequestOk;
    assert forall q | Waiting(ds', q) && q != c :: Waiting(ds, q) && ds'.confirmations[q] == ds.confirmations[q];
  }

  lemma NewAnswerKeeps(ds: Deals, ds': Deals, c: ConfirmationId)
    requires RequestsOk(ds) && DealsAdvances(ds, ds') && NewAnswer(ds, ds', c)
    ensures RequestsOk(ds')
  {
    hide DealsAdvances, RequestOk;
    forall q | q in ds'.confirmations
      ensures RequestOk(ds', q)
    {
      assert RequestOk(ds, q) && (q != c ==> ds'.confirmations[q] == ds.confirmations[q]);
      NotExpired(ds, q);
      RequestStaysOk(ds, ds', q);
    }
    assert forall q | Waiting(ds', q) :: Waiting(ds, q) && ds'.confirmations[q] == ds.confirmations[q];
  }

  lemma NotExpired(ds: Deals, c: ConfirmationId)
    requires c in ds.confirmations && RequestOk(ds, c)
    ensures ds.confirmations[c].status != Expired
  {
  }

  lemma FiledKeepsRequests(ds: Deals, ds': Deals)
    requires RequestsOk(ds) && DealsAdvances(ds, ds') && Filed(ds, ds')
    ensures RequestsOk(ds')
  {
    hide NewRequest, NewAnswer, DealsAdvances, RequestOk;
    if c :| NewRequest(ds, ds', c) {
      NewRequestKeeps(ds, ds', c);
    } else if c :| NewAnswer(ds, ds', c) {
      NewAnswerKeeps(ds, ds', c);
    } else {
      forall q | q in ds'.confirmations
        ensures RequestOk(ds', q)
      {
        assert RequestOk(ds, q);
        NotExpired(ds, q);
        RequestStaysOk(ds, ds', q);
      }
      assert forall q | Waiting(ds', q) :: Waiting(ds, q);
    }
  }

  lemma StepKeepsRequests(w: World, s: Step)
    requires WorldInv(w) && RequestsOk(w.deals)
    ensures RequestsOk(After(w, s).deals)
  {
    hide After, RequestsOk, Filed, DealsAdvances;
    StepFiles(w, s);
    SettlementRuns.StepKeeps(w, s);
    FiledKeepsRequests(w.deals, After(w, s).deals);
  }

  // In every state any run reaches, every stored request is addressed to the other party of a stored deal, at most one
  // waits per deal and stage, and none is stored as expired, although the answer to an expired one sets that status.
  lemma {:induction false} EveryRunKeepsRequests(steps: seq<Step>)
    ensures RequestsOk(Run(START, steps).deals)
  {
    if steps != [] {
      hide After, RequestsOk;
      EveryRunKeepsRequests(steps[..|steps| - 1]);
      SettlementRuns.EveryRun(steps[..|steps| - 1]);
      StepKeepsRequests(Run(START, steps[..|steps| - 1]), steps[|steps| - 1]);
    }
  }

  // ---------- who can answer, and until when ----------

  predicate MayAnswer(r: ConfirmationRow, d: DealId, company: CompanyId, user: UserId, now: Time) {
    && r.status == AwaitingApproval && d == r.deal && company == r.counterparty && user != NO_ID
    && (r.expiresAt.None? || now <= r.expiresAt.value)
  }

  // A request is rejected exactly by its addressee, while it waits and has not expired.
  lemma RejectSucceedsIff(ds: Deals, d: DealId, c: ConfirmationId, company: CompanyId, user: UserId, now: Time)
    requires DealsInv(ds) && RequestsOk(ds) && c in ds.confirmations
    ensures RejectDealConfirmation(ds, d, c, company, user, now).Ok? <==> MayAnswer(ds.confirmations[c], d, company, user, now)
  {
    hide DealsInv;
    assert RequestOk(ds, c);
    if d in ds.deals {
      DealKeyed(ds, d);
    }
  }

  // What the deal must allow for a request to take effect.
  predicate Allows(row: DealRow, r: ConfirmationRow) {
    match r.stage
    case StageConfirmed => row.status == Pending
    case StagePaid => false
    case StageShipped => row.status == ShipmentRequested
    case StageCompleted => row.status == Shipped
    case StageCancelled =>
      && row.status != Completed && row.status != Cancelled
      && (DealsAnswers.Rejects(r.comment) ==> row.status == Pending)
      && (r.comment == PaymentTimeout ==>
            || row.status == Confirmed || row.status == ContractPrepared || row.status == ContractSigned
            || row.status == PaymentRequested)
  }

  // It is approved exactly by its addressee, while it waits, has not expired and the deal allows its stage.
  lemma ApproveSucceedsIff(ds: Deals, d: DealId, c: ConfirmationId, company: CompanyId, user: UserId, now: Time)
    requires DealsInv(ds) && RequestsOk(ds) && c in ds.confirmations
    ensures var r := ds.confirmations[c];
            && r.deal in ds.deals
            && (ApproveDealConfirmation(ds, d, c, company, user, now).Ok?
                <==> MayAnswer(r, d, company, user, now) && Allows(ds.deals[r.deal], r))
  {
    hide DealsInv, Attempts;
    assert RequestOk(ds, c);
    var row := ds.deals[ds.confirmations[c].deal];
    if d in ds.deals {
      DealKeyed(ds, d);
    }
    DealKeyed(ds, row.id);
    BuyerNamed(ds, row.id);
    if row.status == Pending {
      CurrentDeal(ds, row.id);
    }
    DealsAnswers.StoredDeal(ds, row.id);
    var r := ds.confirmations[c];
    if r.stage == StageCancelled {
      DealsAnswers.CancelIff(row, if r.comment == NoReason then DEFAULT_CANCEL_REASON else r.comment, Party(r.requestedBy));
    }
    hide RequestsOk;
  }

  // ---------- overdue requests ----------

  // The clock of a command that answers a request.
  predicate NotBefore(s: Step, since: Time) {
    match s
    case Command(ApproveStep(_, _, _, _, now)) => now >= since
    case Command(RejectStep(_, _, _, _, now)) => now >= since
    case _ => true
  }

  // A request that is waiting for an answer and can no longer get one.
  predicate Overdue(ds: Deals, c: ConfirmationId, now: Time) {
    Waiting(ds, c) && ds.confirmations[c].ExpiredAt(now)
  }

  lemma AnswerKeepsOverdue(ds: Deals, s: DealsStep, c: ConfirmationId, since: Time)
    requires DealsInv(ds) && RequestsOk(ds) && Overdue(ds, c, since) && NotBefore(Command(s), since)
    requires (s.ApproveStep? || s.RejectStep?) && ApplyCommand(ds, s).Ok?
    ensures var ds' := ApplyCommand(ds, s).value; c in ds'.confirmations && ds'.confirmations[c] == ds.confirmations[c]
  {
    hide DealsInv, RequestsOk, ConfirmedBy, CancelledBy, Turns;
    if s.ApproveStep? {
      ApproveCases(ds, s.d, s.c, s.company, s.user, s.now);
      ApproveSucceedsIff(ds, s.d, s.c, s.company, s.user, s.now);
      hide ApproveDealConfirmation;
    } else {
      RejectSucceedsIff(ds, s.d, s.c, s.company, s.user, s.now);
    }
  }

  lemma OtherCommandKeepsOverdue(ds: Deals, s: DealsStep, c: ConfirmationId)
    requires !s.ApproveStep? && !s.RejectStep? && ApplyCommand(ds, s).Ok? && c in ds.confirmations
    requires s.RequestConfirmationStep? ==> s.c !in ds.confirmations
    ensures var ds' := ApplyCommand(ds, s).value; c in ds'.confirmations && ds'.confirmations[c] == ds.confirmations[c]
  {
    hide HandleDealDeclined;
    if s.DeclineStep? {
      DeclineKeepsConfirmations(ds, s.a, s.d, s.newDeal);
    }
  }

  lemma StepKeepsOverdue(w: World, s: Step, c: ConfirmationId, since: Time)
    requires WorldInv(w) && RequestsOk(w.deals) && Overdue(w.deals, c, since) && NotBefore(s, since)
    ensures c in After(w, s).deals.confirmations && After(w, s).deals.confirmations[c] == w.deals.confirmations[c]
  {
    hide ApplyCommand, ApplyDelivery, ApplyBilling, ApplyTrading, DealsInv, RequestsOk;
    WorldParts(w);
    if Enabled(w, s) && Apply(w, s).Ok? {
      match s
      case Command(command) =>
        if command.ApproveStep? || command.RejectStep? {
          AnswerKeepsOverdue(w.deals, command, c, since);
        } else {
          OtherCommandKeepsOverdue(w.deals, command, c);
        }
      case Deliver(v) => DeliveryKeepsConfirmations(w, v);
      case Trade(t) => TradingKeepsDeals(w, t);
      case Pay(p) =>
    }
  }

  lemma {:induction false} RunKeepsRequests(w: World, steps: seq<Step>)
    requires WorldInv(w) && RequestsOk(w.deals)
    ensures WorldInv(Run(w, steps)) && RequestsOk(Run(w, steps).deals)
  {
    if steps != [] {
      var before := Run(w, steps[..|steps| - 1]);
      hide After, RequestsOk;
      RunKeepsRequests(w, steps[..|steps| - 1]);
      SettlementRuns.StepKeeps(before, steps[|steps| - 1]);
      StepKeepsRequests(before, steps[|steps| - 1]);
    }
  }

  // No run answers an overdue request: it waits for ever.
  lemma {:induction false} OverdueForEver(w: World, steps: seq<Step>, c: ConfirmationId, since: Time)
    requires WorldInv(w) && RequestsOk(w.deals) && Overdue(w.deals, c, since) && forall s | s in steps :: NotBefore(s, since)
    ensures Overdue(Run(w, steps).deals, c, since) && Run(w, steps).deals.confirmations[c] == w.deals.confirmations[c]
  {
    if steps != [] {
      var last := |steps| - 1;
      hide After, RequestsOk;
      OverdueForEver(w, steps[..last], c, since);
      RunKeepsRequests(w, steps[..last]);
      assert NotBefore(steps[last], since);
      StepKeepsOverdue(Run(w, steps[..last]), steps[last], c, since);
    }
  }

  // The stage of a waiting request can be freed for another one, by any run whatever from a given time on, exactly if
  // the request has not expired by then; until it is free, asking again is refused.
  lemma StageCanBeFreedIff(w: World, c: ConfirmationId, since: Time)
    requires WorldInv(w) && RequestsOk(w.deals) && Waiting(w.deals, c)
    ensures var r := w.deals.confirmations[c];
            (exists steps: seq<Step> | (forall s | s in steps :: NotBefore(s, since)) :: Free(Run(w, steps).deals, r.deal, r.stage))
            <==> !r.ExpiredAt(since)
  {
    hide DealsInv, RequestsOk, Free, Run;
    WorldParts(w);
    var r := w.deals.confirmations[c];
    if r.ExpiredAt(since) {
      forall steps: seq<Step> | forall s | s in steps :: NotBefore(s, since)
        ensures !Free(Run(w, steps).deals, r.deal, r.stage)
      {
        OverdueForEver(w, steps, c, since);
        WaitingBlocks(Run(w, steps).deals, c);
      }
    } else {
      var steps := RejectionFrees(w, c, since);
      assert Free(Run(w, steps).deals, r.deal, r.stage);
    }
  }

  lemma WaitingBlocks(ds: Deals, c: ConfirmationId)
    requires Waiting(ds, c)
    ensures !Free(ds, ds.confirmations[c].deal, ds.confirmations[c].stage)
  {
  }

  lemma BlockedStageRefuses(ds: Deals, d: DealId, stage: Stage, c: ConfirmationId, company: CompanyId, user: UserId,
                            comment: CancelReason, expiresAt: Option<Time>)
    requires !Free(ds, d, stage) && d in ds.deals && d != NO_ID
    ensures RequestDealConfirmation(ds, d, c, stage, company, user, comment, expiresAt) == Err(ErrConfirmationAlreadyPending)
  {
    FreeMeansNonePending(ds, d, stage);
  }

  // So every other request for the stage of an overdue one is refused for ever.
  lemma OverdueRefusesOthers(w: World, steps: seq<Step>, c: ConfirmationId, since: Time, other: ConfirmationId, company: CompanyId,
                             user: UserId, comment: CancelReason, expiresAt: Option<Time>)
    requires WorldInv(w) && RequestsOk(w.deals) && Overdue(w.deals, c, since) && forall s | s in steps :: NotBefore(s, since)
    ensures var r := w.deals.confirmations[c];
            RequestDealConfirmation(Run(w, steps).deals, r.deal, other, r.stage, company, user, comment, expiresAt)
            == Err(ErrConfirmationAlreadyPending)
  {
    hide Run, RequestDealConfirmation, Free;
    var r := w.deals.confirmations[c];
    OverdueForEver(w, steps, c, since);
    RunKeepsRequests(w, steps);
    WaitingBlocks(Run(w, steps).deals, c);
    assert RequestOk(Run(w, steps).deals, c);
    BlockedStageRefuses(Run(w, steps).deals, r.deal, r.stage, other, company, user, comment, expiresAt);
  }

  // The addressee's rejection frees the stage.
  lemma RejectionFrees(w: World, c: ConfirmationId, since: Time) returns (steps: seq<Step>)
    requires WorldInv(w) && RequestsOk(w.deals) && Waiting(w.deals, c) && !w.deals.confirmations[c].ExpiredAt(since)
    ensures forall s | s in steps :: NotBefore(s, since)
    ensures Free(Run(w, steps).deals, w.deals.confirmations[c].deal, w.deals.confirmations[c].stage)
  {
    hide WorldInv, RequestsOk, DealsInv, Free, RejectDealConfirmation, Run;
    var r := w.deals.confirmations[c];
    RejectedIsFree(w, c, since);
    var s := Command(RejectStep(r.deal, c, r.counterparty, 1, since));
    steps := [s];
    SettlementRuns.OneStep(w, s);
  }

  lemma RejectedIsFree(w: World, c: ConfirmationId, since: Time)
    requires WorldInv(w) && RequestsOk(w.deals) && Waiting(w.deals, c) && !w.deals.confirmations[c].ExpiredAt(since)
    ensures var r := w.deals.confirmations[c];
            var after := RejectDealConfirmation(w.deals, r.deal, c, r.counterparty, 1, since);
            after.Ok? && Free(after.value, r.deal, r.stage)
  {
    hide WorldInv, DealsInv, RejectDealConfirmation;
    WorldParts(w);
    var r := w.deals.confirmations[c];
    assert RequestOk(w.deals, c);
    RejectSucceedsIff(w.deals, r.deal, c, r.counterparty, 1, since);
    DealsAnswers.RejectDealConfirmationDoes(w.deals, r.deal, c, r.counterparty, 1, since);
    var ds' := RejectDealConfirmation(w.deals, r.deal, c, r.counterparty, 1, since).value;
    forall q | Waiting(ds', q)
      ensures ds'.confirmations[q].deal != r.deal || ds'.confirmations[q].stage != r.stage
    {
      assert Waiting(w.deals, q);
    }
  }
}
