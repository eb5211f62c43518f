/**
 The three contexts together: every step the running system can take, in any order, with every event delivered any
 number of times. A step is one transaction; one that fails changes nothing.
 */
module Settlement {
  import opened Common
  import opened Money
  import opened Wallet
  import opened Ledger
  import opened AuctionDomain
  import opened AuctionRuns
  import opened TradingRules
  import opened BillingRules
  import opened DealDomain
  import opened SelectionDomain
  import opened DealsRules
  import opened DealsProgress

  datatype World = World(trading: Trading, billing: Billing, deals: Deals)

  const START := World(NO_TRADING, NO_BILLING, NO_DEALS)

  datatype TradingStep =
    | CreateAuctionStep(a: AuctionId, lot: LotId, startsAt: Time, endsAt: Time, startPrice: int, minBidStep: int)
    | PublishStep(a: AuctionId, at: Time)
    | BidStep(a: AuctionId, bidder: CompanyId, amount: int, placedAt: Time, at: Time)
    | CloseStep(a: AuctionId, privileged: bool, at: Time, listed: seq<Bid>, ranking: seq<Bid>)
    | SellerCancelStep(a: AuctionId, at: Time)
    | AdminCancelStep(a: AuctionId, at: Time)

  datatype DealsStep =
    | ProjectStep(a: AuctionId, supplier: CompanyId, productNamed: bool, startPrice: int, publishedAt: Time)
    | DeclineStep(a: AuctionId, d: DealId, newDeal: DealId)
    | PrepareContractStep(d: DealId, number: nat, now: Time)
    | SignContractStep(d: DealId, signedBy: UserId, signatureRef: nat, now: Time)
    | RequestPaymentStep(d: DealId, dueAt: Time)
    | RequestShipmentStep(d: DealId)
    | CancelStep(d: DealId, reason: CancelReason, actor: Option<Actor>)
    | RequestConfirmationStep(d: DealId, c: ConfirmationId, stage: Stage, company: CompanyId, user: UserId,
                              comment: CancelReason, expiresAt: Option<Time>)
    | ApproveStep(d: DealId, c: ConfirmationId, company: CompanyId, user: UserId, now: Time)
    | RejectStep(d: DealId, c: ConfirmationId, company: CompanyId, user: UserId, now: Time)

  datatype BillingStep =
    | AccountStep(company: CompanyId)
    | TopUpStep(company: CompanyId, amount: int, payment: PaymentId)
    | OpenTopUpStep(company: CompanyId, amount: int, payment: PaymentId)
    | ProviderTopUpStep(payment: PaymentId, amount: int)
    | InvoicePaidStep(d: DealId)
    | InvoiceExpiredStep(d: DealId, now: Time)
    | PayoutReadyStep(d: DealId)
    | PayoutPaidStep(d: DealId)
    | PayoutFailedStep(d: DealId)

  // One delivery of an emitted event to its subscriber. AuctionWon is handled in two transactions.
  datatype Delivery =
    | OpenSelection(won: Posted, newDeal: DealId)
    | ReleaseLosers(won: Posted)
    | CancelledDeal(event: DealEvent, newDeal: DealId)
    | RejectedWinner(event: DealEvent)
    | RequestedPayment(event: DealEvent, now: Time, providerAnswers: bool)
    | PaidInvoice(answer: BillingEvent)
    | ExpiredInvoice(answer: BillingEvent, newDeal: DealId)
    | FinalizedSelection(event: DealEvent)

  datatype Step = Trade(t: TradingStep) | Command(c: DealsStep) | Pay(p: BillingStep) | Deliver(delivery: Delivery)

  // ---------- which steps are possible ----------

  predicate FreshDeal(w: World, d: DealId) { d != NO_ID && d !in w.deals.deals }

  predicate Emitted(w: World, v: Delivery) {
    match v
    case OpenSelection(won, _) => won in w.trading.outbox && won.event.AuctionWon?
    case ReleaseLosers(won) => won in w.trading.outbox && won.event.AuctionWon?
    case CancelledDeal(e, _) => e in w.deals.outbox && e.DealCancelled?
    case RejectedWinner(e) => e in w.deals.outbox && e.WinnerRejected?
    case RequestedPayment(e, _, _) => e in w.deals.outbox && e.PaymentRequestedEvent?
    case PaidInvoice(e) => e in w.billing.outbox && e.DealInvoicePaid?
    case ExpiredInvoice(e, _) => e in w.billing.outbox && e.DealInvoiceExpired?
    case FinalizedSelection(e) => e in w.deals.outbox && e.WinnerSelectionFinalized?
  }

  // Generated identifiers are fresh; events are delivered only after they were emitted.
  predicate Enabled(w: World, s: Step) {
    match s
    case Trade(CloseStep(a, _, _, listed, ranking)) =>
      Ranked(listed, BidsOf(w.trading, a)) && Ranked(ranking, BidsOf(w.trading, a))
    case Trade(_) => true
    case Command(DeclineStep(_, _, newDeal)) => FreshDeal(w, newDeal)
    case Command(RequestConfirmationStep(_, c, _, _, _, _, _)) => c !in w.deals.confirmations
    case Command(_) => true
    case Pay(TopUpStep(_, _, payment)) => payment !in w.billing.topUps
    case Pay(OpenTopUpStep(_, _, payment)) =>
      payment != NO_ID && payment !in w.billing.topUps && payment !in w.billing.processed
    case Pay(_) => true
    case Deliver(v) =>
      && Emitted(w, v)
      && (v.OpenSelection? || v.CancelledDeal? || v.ExpiredInvoice? ==> FreshDeal(w, v.newDeal))
  }

  // ---------- what a step does ----------

  function InTrading(w: World, r: Result<Trading>): Result<World> { var ts :- r; Ok(w.(trading := ts)) }
  function InBilling(w: World, r: Result<Billing>): Result<World> { var b :- r; Ok(w.(billing := b)) }
  function InDeals(w: World, r: Result<Deals>): Result<World> { var ds :- r; Ok(w.(deals := ds)) }

  function ApplyBid(w: World, a: AuctionId, bidder: CompanyId, amount: int, placedAt: Time, at: Time): Result<World> {
    var ts :- PlaceBid(w.trading, a, bidder, amount, placedAt, at);
    var b :- if a in w.trading.auctions then ReserveForBid(w.billing, bidder, a, w.trading.auctions[a].startPrice)
             else Err(ErrNotFound);
    Ok(w.(trading := ts, billing := b))
  }

  function ApplyTrading(w: World, t: TradingStep): Result<World> {
    match t
    case CreateAuctionStep(a, lot, startsAt, endsAt, startPrice, minBidStep) =>
      InTrading(w, CreateAuction(w.trading, a, lot, startsAt, endsAt, startPrice, minBidStep))
    case PublishStep(a, at) => InTrading(w, PublishAuction(w.trading, a, at))
    case BidStep(a, bidder, amount, placedAt, at) => ApplyBid(w, a, bidder, amount, placedAt, at)
    case CloseStep(a, privileged, at, listed, ranking) => InTrading(w, CloseAuction(w.trading, a, privileged, at, listed, ranking))
    case SellerCancelStep(a, at) => InTrading(w, SellerCancelAuction(w.trading, a, at))
    case AdminCancelStep(a, at) => InTrading(w, AdminCancelAuction(w.trading, a, at))
  }

  function ApplyCommand(ds: Deals, c: DealsStep): Result<Deals> {
    match c
    case ProjectStep(a, supplier, productNamed, startPrice, publishedAt) =>
      CreateProjection(ds, a, supplier, productNamed, startPrice, publishedAt)
    case DeclineStep(a, d, newDeal) => HandleDealDeclined(ds, a, d, newDeal)
    case PrepareContractStep(d, number, now) => PrepareContract(ds, d, number, now)
    case SignContractStep(d, signedBy, signatureRef, now) => SignContract(ds, d, signedBy, signatureRef, now)
    case RequestPaymentStep(d, dueAt) => RequestPayment(ds, d, dueAt)
    case RequestShipmentStep(d) => RequestShipment(ds, d)
    case CancelStep(d, reason, actor) => CancelDeal(ds, d, reason, actor)
    case RequestConfirmationStep(d, id, stage, company, user, comment, expiresAt) =>
      RequestDealConfirmation(ds, d, id, stage, company, user, comment, expiresAt)
    case ApproveStep(d, id, company, user, now) => ApproveDealConfirmation(ds, d, id, company, user, now)
    case RejectStep(d, id, company, user, now) => RejectDealConfirmation(ds, d, id, company, user, now)
  }

  function ApplyBilling(b: Billing, p: BillingStep): Result<Billing> {
    match p
    case AccountStep(company) => CreateAccount(b, company)
    case TopUpStep(company, amount, payment) => ConfirmTopUp(b, company, amount, payment)
    case OpenTopUpStep(company, amount, payment) => CreateTopUp(b, company, amount, payment)
    case ProviderTopUpStep(payment, amount) => ConfirmTopUpByProvider(b, payment, amount)
    case InvoicePaidStep(d) => ConfirmDealInvoicePaid(b, d)
    case InvoiceExpiredStep(d, now) => ExpireDealInvoice(b, d, now)
    case PayoutReadyStep(d) => MarkSellerPayoutReady(b, d)
    case PayoutPaidStep(d) => MarkSellerPayoutPaid(b, d)
    case PayoutFailedStep(d) => MarkSellerPayoutFailed(b, d)
  }

  function ApplyDelivery(w: World, v: Delivery): Result<World>
    requires Emitted(w, v)
  {
    match v
    case OpenSelection(won, newDeal) =>
      InDeals(w, CreateDealSelection(w.deals, won.event.auction, won.event.winners, won.event.finalPrice, won.at, newDeal))
    case ReleaseLosers(won) =>
      InBilling(w, ReleaseAuctionDepositsExceptCandidates(w.billing, won.event.auction, won.event.winners))
    case CancelledDeal(e, newDeal) => InDeals(w, OnDealCancelled(w.deals, e.deal, e.reason, newDeal))
    case RejectedWinner(e) => InBilling(w, CaptureAuctionDeposit(w.billing, e.company, e.auction))
    case RequestedPayment(e, now, providerAnswers) =>
      InBilling(w, CreateDealInvoice(w.billing, InvoiceCommand(e.deal, e.auction, e.buyer, e.seller, e.goods, e.dueAt), now, providerAnswers))
    case PaidInvoice(e) =>
      InDeals(w, HandleDealInvoicePaid(w.deals, e.deal, e.auction, e.buyer, e.goods, e.feeDue, e.amount))
    case ExpiredInvoice(e, newDeal) => InDeals(w, HandleDealInvoiceExpired(w.deals, e.deal, e.auction, e.buyer, newDeal))
    case FinalizedSelection(e) =>
      InBilling(w, FinalizeAuction(w.billing, PayoutCommand(e.deal, e.auction, e.company, e.goods, e.feeDue)))
  }

  function Apply(w: World, s: Step): Result<World>
    requires Enabled(w, s)
  {
    match s
    case Trade(t) => ApplyTrading(w, t)
    case Command(c) => InDeals(w, ApplyCommand(w.deals, c))
    case Pay(p) => InBilling(w, ApplyBilling(w.billing, p))
    case Deliver(v) => ApplyDelivery(w, v)
  }

  function After(w: World, s: Step): World {
    if Enabled(w, s) then Or(Apply(w, s), w) else w
  }

  // A run: any sequence of steps, impossible and failing ones leaving everything as it is.
  function Run(w: World, steps: seq<Step>): World {
    if steps == [] then w else After(Run(w, steps[..|steps| - 1]), steps[|steps| - 1])
  }

  // ---------- the invariant that ties the contexts together ----------

  predicate HasBid(ts: Trading, a: AuctionId, c: CompanyId) {
    exists b | b in BidsOf(ts, a) :: b.bidder == c
  }

  // Exactly the bidders have a deposit, of the amount the start price asks for.
  ghost predicate DepositsMatchBids(ts: Trading, b: Billing) {
    && (forall k: DepositKey :: k in b.deposits <==> HasBid(ts, k.auction, k.company))
    && (forall k | k in b.deposits ::
          k.auction in ts.auctions && b.deposits[k].amount == DepositFromStartPrice(ts.auctions[k.auction].startPrice))
  }

  // Every selection is the result its auction announced.
  predicate SelectionAnnounced(ts: Trading, sel: SelectionRow) {
    && sel.auction in ts.auctions && ts.auctions[sel.auction].state == Won
    && sel.candidates == Candidates(Reverse(BidsOf(ts, sel.auction)))
    && sel.finalPrice == ts.auctions[sel.auction].currentPrice
  }

  ghost predicate SelectionsAnnounced(ts: Trading, ds: Deals) {
    forall a | a in ds.selections :: SelectionAnnounced(ts, ds.selections[a])
  }
}
