/**
 The relay driving the system. Every event has an outbox row; a relay round hands rows to their subscribers, whose
 transactions are steps of the system, among everything else that happens meanwhile. A subscriber returns nil exactly if
 its transactions have committed. So what is marked published has been done, and stays done.
 */
module RelayedDeliveries {
  import opened Common
  import opened Settlement
  import opened SettlementInvariants
  import opened SettlementRuns
  import opened SettlementTheorems
  import TradingRules
  import BillingRules
  import DealDomain
  import SettlementSteps
  import EventHandlers
  import Relay
  import RelayRuns

  // ---------- events and their subscribers ----------

  datatype Content = FromTrading(posted: TradingRules.Posted) | FromDeals(event: DealDomain.DealEvent) | FromBilling(answer: BillingRules.BillingEvent)

  const OTHER: Relay.EventType := 0
  const AUCTION_WON: Relay.EventType := 1
  const DEAL_CANCELLED: Relay.EventType := 2
  const WINNER_REJECTED: Relay.EventType := 3
  const PAYMENT_REQUESTED: Relay.EventType := 4
  const DEAL_INVOICE_PAID: Relay.EventType := 5
  const DEAL_INVOICE_EXPIRED: Relay.EventType := 6
  const WINNER_SELECTION_FINALIZED: Relay.EventType := 7

  const SUBSCRIBED := [AUCTION_WON, DEAL_CANCELLED, WINNER_REJECTED, PAYMENT_REQUESTED, DEAL_INVOICE_PAID,
                       DEAL_INVOICE_EXPIRED, WINNER_SELECTION_FINALIZED]

  function TypeOf(c: Content): Relay.EventType {
    match c
    case FromTrading(Posted(AuctionWon(_, _, _), _)) => AUCTION_WON
    case FromDeals(DealCancelled(_, _)) => DEAL_CANCELLED
    case FromDeals(WinnerRejected(_, _, _, _)) => WINNER_REJECTED
    case FromDeals(PaymentRequestedEvent(_, _, _, _, _, _)) => PAYMENT_REQUESTED
    case FromBilling(DealInvoicePaid(_, _, _, _, _, _)) => DEAL_INVOICE_PAID
    case FromBilling(DealInvoiceExpired(_, _, _, _)) => DEAL_INVOICE_EXPIRED
    case FromDeals(WinnerSelectionFinalized(_, _, _, _, _, _)) => WINNER_SELECTION_FINALIZED
    case _ => OTHER
  }

  // The subscriber of EventHandlers.Runtime to the event type, registered under one name for all of them.
  const SETTLEMENT: Relay.HandlerId := 0

  predicate Wired(handlers: map<Relay.EventType, seq<Relay.HandlerId>>) {
    forall t | t in SUBSCRIBED :: SETTLEMENT in Relay.Subscribers(handlers, t)
  }

  method Register(bus: Relay.Bus)
    modifies bus
    ensures Wired(bus.handlers)
    ensures forall t | t !in SUBSCRIBED :: Relay.Subscribers(bus.handlers, t) == old(Relay.Subscribers(bus.handlers, t))
  {
    for i := 0 to |SUBSCRIBED|
      invariant forall t | t in SUBSCRIBED[..i] :: SETTLEMENT in Relay.Subscribers(bus.handlers, t)
      invariant forall t | t !in SUBSCRIBED :: Relay.Subscribers(bus.handlers, t) == old(Relay.Subscribers(bus.handlers, t))
    {
      bus.Subscribe(SUBSCRIBED[i], SETTLEMENT);
    }
    assert SUBSCRIBED[..|SUBSCRIBED|] == SUBSCRIBED;
  }

  predicate Happened(w: World, c: Content) {
    match c
    case FromTrading(posted) => posted in w.trading.outbox
    case FromDeals(e) => e in w.deals.outbox
    case FromBilling(e) => e in w.billing.outbox
  }

  // One call of a subscriber: where in a run its transactions are, and what it gets from outside.
  datatype Call = Call(first: nat, second: nat, newDeal: DealId, now: Time, providerAnswers: bool, catalogAnswers: bool)

  // Its (first) transaction.
  function Transaction(c: Content, call: Call): Option<Delivery> {
    match c
    case FromTrading(posted) => if posted.event.AuctionWon? then Some(OpenSelection(posted, call.newDeal)) else None
    case FromDeals(e) =>
      if e.DealCancelled? then Some(CancelledDeal(e, call.newDeal))
      else if e.WinnerRejected? then Some(RejectedWinner(e))
      else if e.PaymentRequestedEvent? then Some(RequestedPayment(e, call.now, call.providerAnswers))
      else if e.WinnerSelectionFinalized? then Some(FinalizedSelection(e))
      else None
    case FromBilling(e) => Some(if e.DealInvoicePaid? then PaidInvoice(e) else ExpiredInvoice(e, call.newDeal))
  }

  // Step i of the run is the transaction, and it commits.
  predicate CommitsAt(w: World, steps: seq<Step>, i: nat, v: Delivery) {
    && i < |steps| && steps[i] == Deliver(v)
    && Enabled(Run(w, steps[..i]), steps[i]) && Apply(Run(w, steps[..i]), steps[i]).Ok?
  }

  // What the program's handlers return: nil exactly if their transaction committed.
  lemma HandlerReturnsNilIff(w: World, steps: seq<Step>, i: nat, v: Delivery, err: Option<Error>)
    requires i < |steps| && steps[i] == Deliver(v) && Enabled(Run(w, steps[..i]), steps[i])
    requires EventHandlers.Took(Run(w, steps[..i]), v, err, Run(w, steps[..i + 1]))
    ensures err.None? <==> CommitsAt(w, steps, i, v)
  {
    hide Run, ApplyDelivery;
  }

  // The subscriber to AuctionWon needs both of its transactions and the catalog in between.
  predicate ReturnsNil(w: World, steps: seq<Step>, c: Content, call: Call) {
    match Transaction(c, call)
    case None => true
    case Some(v) =>
      && CommitsAt(w, steps, call.first, v)
      && (v.OpenSelection? ==>
            v.won.event.AuctionWon? && v.won.event.winners != [] && call.catalogAnswers
            && call.first < call.second && CommitsAt(w, steps, call.second, ReleaseLosers(v.won)))
  }

  // ---------- the system with its relay ----------

  datatype System = System(
    world: World,
    outbox: RelayRuns.Outbox,
    contents: map<Relay.MessageId, Content>,
    handlers: map<Relay.EventType, seq<Relay.HandlerId>>
  )

  datatype SystemStep =
    | Work(steps: seq<Step>)
    | Write(id: Relay.MessageId, content: Content)
    | Round(limit: nat, decoders: set<Relay.EventType>, now: Time, faults: Relay.Faults, steps: seq<Step>, calls: map<Relay.MessageId, Call>)

  // The messages whose settlement subscriber does not return nil, if it is called.
  function Failing(sys: System, steps: seq<Step>, calls: map<Relay.MessageId, Call>): set<(Relay.MessageId, Relay.HandlerId)> {
    set id | id in sys.contents && !(id in calls && ReturnsNil(sys.world, steps, sys.contents[id], calls[id])) :: (id, SETTLEMENT)
  }

  // A row is written for an event that happened. During a round anything may happen, the subscribers' transactions among
  // it; all other faults of the round are arbitrary.
  function AfterStep(sys: System, s: SystemStep): System {
    match s
    case Work(steps) => sys.(world := Run(sys.world, steps))
    case Write(id, content) =>
      if Happened(sys.world, content) && id !in sys.outbox.rows then
        sys.(outbox := RelayRuns.After(sys.outbox, RelayRuns.Added(id, TypeOf(content))), contents := sys.contents[id := content])
      else sys
    case Round(limit, decoders, now, faults, steps, calls) =>
      var failing := faults.(handling := faults.handling + Failing(sys, steps, calls));
      sys.(world := Run(sys.world, steps),
           outbox := RelayRuns.After(sys.outbox, RelayRuns.Ran(limit, decoders, sys.handlers, now, failing)))
  }

  function RunSystem(sys: System, steps: seq<SystemStep>): System {
    if steps == [] then sys else AfterStep(RunSystem(sys, steps[..|steps| - 1]), steps[|steps| - 1])
  }

  function StartSystem(handlers: map<Relay.EventType, seq<Relay.HandlerId>>): System {
    System.System(START, RelayRuns.Outbox(map[], []), map[], handlers)
  }

  // ---------- what is published is done ----------

  // Everything an event asks of its settlement subscriber.
  function Duties(c: Content): seq<Delivery> {
    match Transaction(c, Call(0, 0, NO_ID, ZERO_TIME, true, true))
    case None => []
    case Some(v) => if v.OpenSelection? then [v, ReleaseLosers(v.won)] else [v]
  }

  ghost predicate Finished(w: World, c: Content) {
    forall v | v in Duties(c) :: Emitted(w, v) && Done(w, v)
  }

  ghost predicate SystemInv(sys: System) {
    && WorldInv(sys.world)
    && (forall id | id in sys.outbox.rows :: id in sys.contents)
    && (forall id | id in sys.contents ::
          && Happened(sys.world, sys.contents[id])
          && id in sys.outbox.rows && sys.outbox.rows[id].eventType == TypeOf(sys.contents[id])
          && (sys.outbox.rows[id].publishedAt.Some? ==> Finished(sys.world, sys.contents[id])))
  }

  lemma SameEventDone(w: World, v: Delivery, u: Delivery)
    requires SameEvent(v, u) && Emitted(w, u) && Done(w, u)
    ensures Emitted(w, v) && Done(w, v)
  {
    hide LosersFree;
  }

  // A committed transaction has done what it is for, and no later step of the run undoes it.
  lemma CommittedIsDone(w: World, steps: seq<Step>, i: nat, u: Delivery)
    requires WorldInv(w) && CommitsAt(w, steps, i, u)
    ensures Emitted(Run(w, steps), u) && Done(Run(w, steps), u)
  {
    hide Done, Emitted, Run, After, Apply, Enabled;
    var before := Run(w, steps[..i]);
    RunKeeps(w, steps[..i]);
    AcceptedStaysDone(before, u, steps[i + 1..]);
    OneStep(before, steps[i]);
    assert steps == steps[..i] + ([steps[i]] + steps[i + 1..]);
    RunConcat(w, steps[..i], [steps[i]] + steps[i + 1..]);
    RunConcat(before, [steps[i]], steps[i + 1..]);
  }

  lemma NilMeansFinished(w: World, steps: seq<Step>, c: Content, call: Call)
    requires WorldInv(w) && ReturnsNil(w, steps, c, call)
    ensures Finished(Run(w, steps), c)
  {
    hide Run, CommitsAt, Done, Emitted, WorldInv;
    if Transaction(c, call).Some? {
      var u := Transaction(c, call).value;
      CommittedIsDone(w, steps, call.first, u);
      if u.OpenSelection? {
        CommittedIsDone(w, steps, call.second, ReleaseLosers(u.won));
      }
      forall v | v in Duties(c)
        ensures Emitted(Run(w, steps), v) && Done(Run(w, steps), v)
      {
        if !u.OpenSelection? || v != ReleaseLosers(u.won) {
          SameEventDone(Run(w, steps), v, u);
        }
      }
    }
  }

  lemma FinishedStays(w: World, steps: seq<Step>, c: Content)
    requires WorldInv(w) && Finished(w, c)
    ensures Finished(Run(w, steps), c)
  {
    hide Run, Done, Emitted, WorldInv, SettlementSteps.Advances, Duties;
    RunKeeps(w, steps);
    forall v | v in Duties(c)
      ensures Emitted(Run(w, steps), v) && Done(Run(w, steps), v)
    {
      DoneStays(w, Run(w, steps), v);
    }
  }

  lemma HappenedStays(w: World, steps: seq<Step>, c: Content)
    requires WorldInv(w) && Happened(w, c)
    ensures Happened(Run(w, steps), c)
  {
    hide Run, WorldInv;
    RunKeeps(w, steps);
    assert w.trading.outbox <= Run(w, steps).trading.outbox && w.billing.outbox <= Run(w, steps).billing.outbox
           && w.deals.outbox <= Run(w, steps).deals.outbox;
    hide SettlementSteps.Advances;
  }

  // A subscribed message is published only if its settlement subscriber returned nil in that very round.
  lemma PublishedMeansFinished(sys: System, s: SystemStep, id: Relay.MessageId)
    requires SystemInv(sys) && Wired(sys.handlers) && s.Round? && id in sys.contents && sys.outbox.rows[id].publishedAt.None?
    requires id in AfterStep(sys, s).outbox.rows && AfterStep(sys, s).outbox.rows[id].publishedAt.Some?
    ensures Finished(Run(sys.world, s.steps), sys.contents[id])
  {
    hide Run, ReturnsNil, RelayRuns.After, Finished, WorldInv;
    var c := sys.contents[id];
    var failing := s.faults.(handling := s.faults.handling + Failing(sys, s.steps, s.calls));
    RelayRuns.PublishedMeansHandled(sys.outbox, RelayRuns.Ran(s.limit, s.decoders, sys.handlers, s.now, failing), id);
    if TypeOf(c) == OTHER {
      NothingToDo(Run(sys.world, s.steps), c);
    } else {
      assert TypeOf(c) in SUBSCRIBED;
      assert (id, SETTLEMENT) !in Failing(sys, s.steps, s.calls);
      NilMeansFinished(sys.world, s.steps, c, s.calls[id]);
    }
  }

  lemma NothingToDo(w: World, c: Content)
    requires TypeOf(c) == OTHER
    ensures Finished(w, c)
  {
    hide Emitted, Done;
  }

  lemma RoundKeepsRow(sys: System, s: SystemStep, id: Relay.MessageId)
    requires s.Round? && id in sys.outbox.rows
    ensures id in AfterStep(sys, s).outbox.rows && AfterStep(sys, s).outbox.rows[id].eventType == sys.outbox.rows[id].eventType
  {
    hide Run;
    var failing := s.faults.(handling := s.faults.handling + Failing(sys, s.steps, s.calls));
    RelayRuns.RoundFate(sys.outbox.rows, sys.outbox.order, s.limit, s.decoders, sys.handlers, s.now, failing, id);
  }

  lemma RoundAddsNothing(sys: System, s: SystemStep, id: Relay.MessageId)
    requires s.Round? && id in AfterStep(sys, s).outbox.rows
    ensures id in sys.outbox.rows
  {
    hide Run, RelayRuns.After;
    var failing := s.faults.(handling := s.faults.handling + Failing(sys, s.steps, s.calls));
    if id !in sys.outbox.rows {
      RelayRuns.StepAddsNothingElse(sys.outbox, RelayRuns.Ran(s.limit, s.decoders, sys.handlers, s.now, failing), id);
      assert false;
    }
  }

  lemma RoundKeeps(sys: System, s: SystemStep)
    requires SystemInv(sys) && Wired(sys.handlers) && s.Round?
    ensures SystemInv(AfterStep(sys, s))
  {
    hide Run, RelayRuns.After, Finished, WorldInv, SettlementSteps.Advances, Happened, TypeOf, Failing;
    RunKeeps(sys.world, s.steps);
    var after := AfterStep(sys, s);
    forall id | id in after.outbox.rows
      ensures id in after.contents
    {
      RoundAddsNothing(sys, s, id);
    }
    forall id | id in after.contents
      ensures Happened(after.world, after.contents[id])
      ensures id in after.outbox.rows && after.outbox.rows[id].eventType == TypeOf(after.contents[id])
      ensures after.outbox.rows[id].publishedAt.Some? ==> Finished(after.world, after.contents[id])
    {
      HappenedStays(sys.world, s.steps, sys.contents[id]);
      RoundKeepsRow(sys, s, id);
      if sys.outbox.rows[id].publishedAt.Some? {
        FinishedStays(sys.world, s.steps, sys.contents[id]);
      } else if after.outbox.rows[id].publishedAt.Some? {
        PublishedMeansFinished(sys, s, id);
      }
    }
  }

  lemma WorkKeeps(sys: System, steps: seq<Step>)
    requires SystemInv(sys)
    ensures SystemInv(AfterStep(sys, Work(steps)))
  {
    hide Run, Finished, WorldInv, SettlementSteps.Advances, Happened, TypeOf;
    RunKeeps(sys.world, steps);
    forall id | id in sys.contents
      ensures Happened(Run(sys.world, steps), sys.contents[id])
      ensures sys.outbox.rows[id].publishedAt.Some? ==> Finished(Run(sys.world, steps), sys.contents[id])
    {
      HappenedStays(sys.world, steps, sys.contents[id]);
      if sys.outbox.rows[id].publishedAt.Some? {
        FinishedStays(sys.world, steps, sys.contents[id]);
      }
    }
  }

  lemma WriteKeeps(sys: System, id: Relay.MessageId, content: Content)
    requires SystemInv(sys)
    ensures SystemInv(AfterStep(sys, Write(id, content)))
  {
    hide Finished, WorldInv, Happened, TypeOf;
  }

  // In every run of the system with its relay, however rounds fail and whatever else happens, a message is marked
  // published only once everything it asks for is done; and it stays done.
  lemma {:induction false} PublishedStaysDone(handlers: map<Relay.EventType, seq<Relay.HandlerId>>, steps: seq<SystemStep>)
    requires Wired(handlers)
    ensures var sys := RunSystem(StartSystem(handlers), steps);
            && SystemInv(sys) && sys.handlers == handlers
            && forall id | id in sys.outbox.rows && sys.outbox.rows[id].publishedAt.Some? ::
                 id in sys.contents && Finished(sys.world, sys.contents[id])
  {
    hide Finished, WorldInv, Wired;
    if steps == [] {
      StartInv();
    } else {
      hide AfterStep, SystemInv;
      var before, s := RunSystem(StartSystem(handlers), steps[..|steps| - 1]), steps[|steps| - 1];
      PublishedStaysDone(handlers, steps[..|steps| - 1]);
      SameHandlers(before, s);
      match s {
        case Work(more) => WorkKeeps(before, more);
        case Write(id, content) => WriteKeeps(before, id, content);
        case Round(_, _, _, _, _, _) => RoundKeeps(before, s);
      }
      InvPublished(AfterStep(before, s));
    }
  }

  lemma SameHandlers(sys: System, s: SystemStep)
    ensures AfterStep(sys, s).handlers == sys.handlers
  {
    hide Run, RelayRuns.After;
  }

  lemma InvPublished(sys: System)
    requires SystemInv(sys)
    ensures forall id | id in sys.outbox.rows && sys.outbox.rows[id].publishedAt.Some? :: id in sys.contents && Finished(sys.world, sys.contents[id])
  {
    hide Finished, WorldInv, Happened, TypeOf;
  }
}
