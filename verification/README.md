# From bids to money: a verified model of the auction platform

This Dafny project models the part of the platform in which a sale becomes money: bidding and closing an auction
(`internal/trading`), the winner selection with its fallback deals (`internal/deals`), deposits, ledger, invoices and
payouts (`internal/billing`), the subscribers that tie the three together (`internal/integration/runtime`), and the outbox
relay that drives them (`internal/infra`). The three contexts commit separately and talk through events that may be
delivered late, repeatedly and out of order. The main results say that, all the same, the money is right in every
reachable state: nobody pays twice, nobody is both forfeited and finalized, settlement never gets stuck, and every event
can be delivered again without harm.

`dafny verify dfyconfig.toml` checks everything.

## How it is built

| layer | files |
|---|---|
| vocabulary | Common, Money, Ledger |
| domain objects: classes that update their fields, each with a row value | Wallet, DealDomain, SelectionDomain, AuctionDomain |
| the lifecycle of each domain object as a table | Lifecycles |
| for every use case, the state its transaction commits | BillingRules, DealsRules, TradingRules |
| the use cases step by step on tables and objects, proved equal to those states | BillingStore, DealsStore, TradingStore, EventHandlers |
| invariants and outcomes of each context | BillingInvariants, BillingOutcomes, DealsInvariants, DealsOutcomes, DealsProgress, AuctionRuns, TradingInvariants |
| the whole system as a state machine | Settlement, SettlementInvariants, SettlementSteps, SettlementRuns, SettlementTheorems |
| when each operation is accepted, and exactly what it changes | TradingAnswers, BillingAnswers, DealsAnswers, SettlementAnswers |
| what can get stuck, exactly when and until when | StuckDeals, ConfirmationRuns, ForgottenDeposits |
| no event is lost; which sales can still be completed | Announcements, Scripts, Sales |
| runs that reach the states the theorems speak of | Histories |
| the relay, alone and driving the system | Relay, RelayRuns, RelayedDeliveries |

A use case appears twice: as a function on table values, about which the theorems are proved, and as a method that loads
objects, mutates and saves them like the program, whose contract is that function. A failing method promises only its
error, because the surrounding transaction is rolled back; `EventHandlers.Runtime` does that roll-back and is proved to
take exactly the steps of `Settlement`. The methods of a domain object are proved equal to a function on its row; the
table below has a row for the use case that calls them rather than one for each.

A run is any sequence of steps (`Settlement.Run`). A step is a command, or the delivery of any event that was ever
emitted, so duplication, delay and reordering need no further model; a step that fails or is not possible leaves
everything as it is. A state is good if it satisfies `SettlementInvariants.WorldInv`; `SettlementRuns.EveryRun` proves
that runs reach only good states, and the theorems of `SettlementTheorems` hold in every good state and after every further run.

## Assumptions

- Each transaction is one atomic step. `SettleWinnerDepositAfterInvoicePaid` and `ReleaseAuctionDepositsExceptCandidates`
  read a deposit before they lock the account; nothing is claimed about two relays working at once.
- Generated identifiers are fresh; an identifier is a number and zero stands for the blank string. Invoices and payouts,
  unique per deal in the database, are keyed by their deal.
- A payment identifier that a direct top-up confirmation uses does not belong to a stored top-up.
- Amounts are mathematical integers. The one currency of the program (RUB) and its checks are dropped.
- An outbox row of the trading context carries the time it was written, which becomes the time the auction was won.
- The text in a ledger row's reference is replaced by its parts; `Money.ReferenceTextInjective` is why that loses nothing.
- Only operations wired in production are steps. The single release, the deposit-only fee capture and the domain methods
  behind the unwired commands are modelled and proved, but are not steps.
- The payment provider, the catalog, the clock and database errors of the relay are inputs of the step that meets them.

## Where the code differs from what it promises

Each of the first six entries names the exact condition, proved for all inputs, and a history from the empty state that
fails the promise.

- The repository's README says that fallback happens on any cancellation of a deal as long as there is an active chain of
  candidates. The subscriber to DealCancelled skips the reason PAYMENT_TIMEOUT, which is right for an expired invoice but
  also fits a cancellation whose approved request carries that comment. The auction is then stranded on the cancelled
  deal until an operator declines it, and exactly until then (`DealsProgress.CancelledCurrentDealIsPassedIff`,
  `StuckDeals.StrandedMovesOnIff`, `Histories.CommentStrandsAuction`).
- A contract may be prepared for a deal that is still pending. That deal can never be confirmed afterwards, and payment is
  requested only for confirmed deals: it can never be paid, and its auction waits until somebody cancels it
  (`Sales.SaleCanCompleteIff`, `Sales.ContractFirstIsNeverPaid`, `Histories.ContractCameTooEarly`).
- An expired confirmation request is to become EXPIRED. Answering it sets that status and returns an error, so it is
  rolled back: no request is ever stored as EXPIRED, and an overdue one waits and blocks its deal's stage for ever
  (`ConfirmationRuns.EveryRunKeepsRequests`, `ConfirmationRuns.StageCanBeFreedIff`, `Histories.RequestOverdue`).
- A rejected winner's deposit is to be captured. If the auction is finalized for another candidate before WinnerRejected
  arrives, the deposit is given back and the event is refused for good (`SettlementRuns.RejectedWinnerOutcome`,
  `Histories.LateForfeitureIsRefused`).
- A paid invoice is to lead to a paid deal. It does exactly while the deal is payment_requested; if the deal was
  cancelled meanwhile the money stays with no deal to pay for (`SettlementRuns.PaidInvoiceOutcome`,
  `Histories.PaidForCancelledDeal`).
- Losers are to get their deposits back. They do in the second transaction of the subscriber to AuctionWon, which is
  reached only if the first one commits. If the second fails at first and the candidates run out before the retry, every
  retry fails in the first transaction. Nor does anything give back the deposits of an auction that was cancelled with
  bids, or of a candidate whose deal was cancelled without a forfeiture, once the candidates have run out. A deposit that
  is HELD on such an auction leaves HELD only by an emitted forfeiture (`ForgottenDeposits.OpeningSucceedsIff`,
  `ForgottenDeposits.CanBeFreedIff`, `Histories.LoserIsForgotten`, `Histories.CancelledAuctionKeepsDeposits`,
  `Histories.SellersCancellationKeepsDeposit`).
- `CreateDealInvoice` would crash on a missing deposit row; `SettlementTheorems.InvoiceNeverFollowsNil` shows that no
  reachable delivery finds one missing.
- A late bid moves the end to five minutes after the bid's own time, not after the time it is processed.

## Model

| member | source | states |
|---|---|---|
| SettlementRuns.EveryRun | internal/integration/runtime/event_handlers.go:158-451 | Every state that any run of the system reaches - every event delivered late, repeatedly and out of order, between any other commands - is good: the three contexts agree (`WorldInv`: deposits are those of the bidders, selections are announced results, invoices repeat their deals, finalized selections are paid for, payouts belong to settled auctions, every ended deposit has its cause) |
| SettlementRuns.RunKeeps | internal/integration/runtime/event_handlers.go:158-451 | From any good state every run keeps the invariant and undoes no fact: rows never disappear, ended deposits, paid invoices, paid payouts, cancelled deals and finished selections never change again |
| SettlementTheorems.DurableIdempotence | internal/integration/runtime/event_handlers.go:167-451 | Once a subscriber to AuctionWon (each of its two transactions), WinnerRejected, DealCancelled, PaymentRequested, DealInvoicePaid, DealInvoiceExpired or WinnerSelectionFinalized has accepted an event, delivering that event again after any further run changes no table and emits nothing, except that a repeated cancellation of an exhausted auction may announce WinnerSelectionFailed once more |
| SettlementTheorems.AcceptedStaysDone | internal/integration/runtime/event_handlers.go:167-451 | What a subscriber accepted (selection opened, losers' deposits free, deal left behind, deposit captured, invoice opened, deal past payment, payout owed) stays accomplished in every later state |
| SettlementTheorems.FinalizedWinnerStaysHeld | internal/billing/app/settle_winner_deposit_after_invoice_paid.go:67-85 | From the moment a WinnerSelectionFinalized is emitted until it is processed, the winner's deposit is HELD with the amount the start price asked for |
| SettlementTheorems.SettlementNeverFails | internal/integration/runtime/event_handlers.go:404-451 | The WinnerSelectionFinalized transaction never fails in a good state, so the fee-due mismatch is unreachable; the first time it settles the auction, afterwards it changes nothing |
| SettlementTheorems.BuyerPaysGoodsAndFee | internal/billing/app/settle_winner_deposit_after_invoice_paid.go:78-150 | For every payout: invoice total plus what was captured of the winner's deposit is goods plus floor(3% of goods), captured plus released is the deposit, the payout is the goods, it is the auction's only payout and no deposit of the auction is HELD |
| SettlementTheorems.RejectionExcludesFinalization | internal/deals/deal/deal.go:364-456 | In no good state have both WinnerRejected and WinnerSelectionFinalized been emitted for one auction and company |
| SettlementTheorems.InvoiceNeverFollowsNil | internal/billing/app/create_deal_invoice.go:89-95 | Opening the invoice of an emitted payment request never follows the nil deposit that Find may return |
| SettlementTheorems.BooksBalance | internal/billing/wallet/ledger_entry.go:7-16 | Held is the sum of the company's HELD deposits, both balances are the signed sums of its ledger lines, and what it owns is top-ups plus payouts minus captures |
| SettlementTheorems.DepositLifecycle | internal/billing/app/settle_winner_deposit_after_invoice_paid.go:102-166 | A deposit keeps its amount, leaves HELD at most once, and then its released and captured lines add up to exactly its amount as its status says |
| SettlementTheorems.PayoutCreditedOnce | internal/billing/app/mark_seller_payout_paid.go:60-193 | A seller is credited exactly the amount, once, exactly when the payout is PAID, and the credit line exists exactly then |
| SettlementTheorems.TopUpCreditedOnce | internal/billing/app/confirm_top_up.go:39-88 | A processed external payment is credited by exactly one ledger line, any other by none; a top-up has succeeded exactly when its payment was processed, and then its company was credited with exactly its amount |
| SettlementTheorems.DealsFollowRanking | internal/deals/app/usecases.go:247-386 | For every auction the k-th deal ever created belongs to the k-th candidate, at most one per candidate, every deal but the selected one is cancelled, and the selection is exhausted exactly when it has no deal |
| SettlementTheorems.AnnouncedResult | internal/trading/auction/auction.go:140-172 | Every announced result follows from the stored bids: winners are exactly the bidders of the last three accepted bids, each once and in the order of their latest bids, the first is the leader, the final price is the last bid and not below the start price |
| EventHandlers.Runtime.AuctionWon | internal/integration/runtime/event_handlers.go:167-193 | Opens the selection, syncs the catalog, frees the losers' deposits; an error keeps exactly the transactions already committed |
| EventHandlers.Runtime.WinnerRejected | internal/integration/runtime/event_handlers.go:211-223 | Takes exactly the RejectedWinner step, or reports its error and changes nothing |
| EventHandlers.Runtime.DealCancelled | internal/integration/runtime/event_handlers.go:225-244 | Takes exactly the CancelledDeal step: nothing for PAYMENT_TIMEOUT, nil when no winner is left, otherwise the decline |
| EventHandlers.Runtime.PaymentRequested | internal/integration/runtime/event_handlers.go:330-355 | Takes exactly the RequestedPayment step, or reports its error and changes nothing |
| EventHandlers.Runtime.DealInvoicePaid | internal/integration/runtime/event_handlers.go:365-374 | Takes exactly the PaidInvoice step, or reports its error and changes nothing |
| EventHandlers.Runtime.DealInvoiceExpired | internal/integration/runtime/event_handlers.go:384-394 | Takes exactly the ExpiredInvoice step, or reports its error and changes nothing |
| EventHandlers.Runtime.WinnerSelectionFinalized | internal/integration/runtime/event_handlers.go:404-451 | Takes exactly the FinalizedSelection step in one transaction, or reports its error and changes nothing |
| SettlementRuns.FinalizeSettles | internal/integration/runtime/event_handlers.go:415-450 | The first delivery of WinnerSelectionFinalized succeeds, splits the winner's deposit, frees every other HELD deposit of the auction, owes the seller and keeps the invariant |
| SettlementRuns.FinalizeIsIdle | internal/integration/runtime/event_handlers.go:415-450 | Every further delivery leaves billing exactly as it is |
| SettlementRuns.ReleaseLosersKeeps | internal/integration/runtime/event_handlers.go:187-191 | The release after AuctionWon never fails and leaves HELD only candidates' deposits on that auction |
| SettlementRuns.PaidInvoiceOutcome | internal/deals/app/handle_deal_invoice_paid.go:31-99 | An emitted DealInvoicePaid always matches its deal, and is accepted exactly while the deal is payment_requested (it is then paid and its selection finalized) or paid (nothing changes); a deal cancelled meanwhile refuses the money already paid |
| SettlementRuns.RejectedWinnerOutcome | internal/integration/runtime/event_handlers.go:211-223 | A rejected winner always has a deposit row; a delivered forfeiture leaves it CAPTURED, and is refused exactly when the auction was settled first and the deposit is not CAPTURED: a late forfeiture loses against the release at finalization |
| SettlementAnswers.ExpiredInvoiceOutcome | internal/deals/app/handle_deal_invoice_expired.go:27-166 | In every reachable state every emitted DealInvoiceExpired is accepted: a deal in payment_requested is cancelled and forfeited and the next candidate gets a pending deal, or the selection is exhausted; the deal is cancelled already otherwise, and nothing changes |
| SettlementAnswers.RequestedPaymentOutcome | internal/integration/runtime/event_handlers.go:330-355 | In every reachable state an emitted payment request is refused only while the provider does not answer or if buyer and seller are one; the invoice it opens, its fee and its due time are determined |
| SettlementAnswers.ExpiredOnlyWhenDue | internal/billing/app/expire_deal_invoice.go:28-65 | Over every run an invoice is EXPIRED only by a step whose clock had reached the invoice's due time |
| SettlementAnswers.BidStepIff | internal/trading/app/usecases.go:143-195 | A bid with its deposit is taken exactly if the auction allows it and its bidder has bid there before or can pay the deposit |
| SettlementInvariants.LiveDealKeepsDeposit | internal/billing/app/create_deal_invoice.go:89-100 | While a deal can still lead, or did lead, to a finalized sale and has no payout, its buyer's deposit is HELD with its original amount |
| SettlementInvariants.OneDealPerCompany | internal/trading/auction/auction.go:262-287 | One company never has two deals on one auction, because candidates are distinct |
| StuckDeals.StrandedMovesOnIff | internal/integration/runtime/event_handlers.go:225-244 | For every auction stranded on a cancelled current deal whose only cancellations read PAYMENT_TIMEOUT and for every run: the auction has moved on at the end if and only if an operator's decline of that deal was taken somewhere in the run |
| StuckDeals.StrandedUntilDeclined | internal/integration/runtime/event_handlers.go:230-233 | Over every run without that decline the selection keeps the cancelled deal: no event, command or redelivery asks the next candidate |
| StuckDeals.DeclineMovesOn | cmd/admin/main.go:44-53 | The operator's decline of a stranded deal, by its auction and with or without the deal, always succeeds and falls back to the next candidate, or exhausts the selection; so does the use case called with the deal alone |
| ConfirmationRuns.EveryRunKeepsRequests | internal/deals/deal/confirmation.go:158-224 | In every state of every run no stored request is EXPIRED, at most one waits per deal and stage, and each goes from one party of a stored deal to the other |
| ConfirmationRuns.RejectSucceedsIff | internal/deals/app/confirmations.go:172-217 | A request is rejected exactly by its addressee, for its own deal, while it waits and has not expired |
| ConfirmationRuns.ApproveSucceedsIff | internal/deals/app/confirmations.go:101-158 | A request is approved exactly under the same conditions and while its deal still allows the stage, or the cancellation |
| ConfirmationRuns.StageCanBeFreedIff | internal/deals/app/confirmations.go:35-60 | For every waiting request and every time: some run whose answers come no earlier frees its stage for another request if and only if the request has not expired by then |
| ConfirmationRuns.OverdueForEver | internal/deals/app/confirmations.go:101-217 | Over every run whose answers come after its expiry an overdue request stays waiting exactly as it was filed |
| ConfirmationRuns.OverdueRefusesOthers | internal/deals/app/confirmations.go:35-60 | Over every such run every other request for the same deal and stage is refused as a duplicate |
| ForgottenDeposits.OpeningSucceedsIff | internal/integration/runtime/event_handlers.go:176-187 | The first transaction of AuctionWon commits, so that the losers' release is reached, exactly while the selection has not run out of candidates (and the auction's seller and product are projected) |
| ForgottenDeposits.ForgottenUnlessFreed | internal/integration/runtime/event_handlers.go:187-223 | For a deposit that is HELD on an auction that was cancelled or has run out of candidates, and every run: it is still HELD at the end if and only if neither the release of losers that its company belongs to nor the forfeiture of its company is delivered in the run |
| ForgottenDeposits.RetriesFail | internal/integration/runtime/event_handlers.go:176-191 | In the order of the subscriber, no run reaches the release of the losers of such an auction |
| ForgottenDeposits.CanBeFreedIff | internal/integration/runtime/event_handlers.go:172-223 | Such a deposit can still be freed, by any run in the order of the subscriber, if and only if the forfeiture of its company was emitted: all others stay HELD for ever |
| ForgottenDeposits.NeverForfeited | internal/deals/deal/deal.go:364-456 | A deal that was cancelled without a forfeiture is never forfeited in any later state |
| Sales.SaleCanCompleteIff | internal/integration/runtime/event_handlers.go:158-451 | For every stored deal of every reachable state and every time: some run whose answers come no earlier ends with the seller paid if and only if the sale is finalized and its payout has not failed, or the deal is not cancelled, buyer and seller differ, and it either waits for its confirmation without an overdue request for it, or was confirmed and its invoice is absent, pending or paid |
| Sales.SellableSells | internal/integration/runtime/event_handlers.go:158-451 | The run that completes such a sale, in which the other HELD deposits of its auction are given back |
| Sales.UnsellableForEver | internal/deals/app/usecases.go:558-601 | Once one of these conditions fails, it fails over every later run: nothing reopens the way to the payout |
| Sales.ContractCanComeFirst | internal/deals/deal/deal.go:178-212 | The contract of every pending deal can be prepared before its confirmation |
| Sales.ContractFirstIsNeverPaid | internal/deals/app/usecases.go:569-597 | Over every run a deal that was given its contract before its confirmation stays unconfirmed and is never paid; all that can end it is its cancellation |
| Histories.SaleIsPaidOut | internal/integration/runtime/event_handlers.go:158-451 | A run from the empty state, through top-ups, bids, the close, the confirmation, contract and invoice, that ends with the seller's payout PAID |
| Histories.TimedOutWinnerForfeits | internal/integration/runtime/runtime.go:155-175 | A run from the empty state in which a winner does not confirm in time, the deal is cancelled for it, and the deposit ends CAPTURED |
| Histories.NextOneBuysAfterExpiry | internal/deals/app/handle_deal_invoice_expired.go:27-166 | A run from the empty state in which the first winner's invoice expires and the second one's purchase is paid out |
| Histories.LateForfeitureIsRefused | internal/integration/runtime/event_handlers.go:211-223 | A run from the empty state in which a forfeiture is emitted, the next candidate buys, and the forfeiture delivered only then is refused because the deposit is RELEASED |
| Histories.PaidForCancelledDeal | internal/deals/app/handle_deal_invoice_paid.go:31-57 | A run from the empty state in which a deal is cancelled while its invoice waits, the buyer pays, and the payment is refused |
| Histories.CommentStrandsAuction | internal/integration/runtime/event_handlers.go:225-244 | A run from the empty state that strands an auction on its first deal, with a second candidate left, by an agreed cancellation with the comment PAYMENT_TIMEOUT |
| Histories.RequestOverdue | internal/deals/deal/confirmation.go:158-224 | A run from the empty state that leaves a request overdue |
| Histories.LoserIsForgotten | internal/integration/runtime/event_handlers.go:172-193 | A run from the empty state after which a loser's deposit is HELD, AuctionWon is emitted, and the candidates have run out |
| Histories.CancelledAuctionKeepsDeposits | internal/trading/auction/auction.go:196-210 | A run from the empty state after which the auction was cancelled with bids and everyone's deposit is HELD, without a forfeiture |
| Histories.SellersCancellationKeepsDeposit | internal/deals/deal/deal.go:364-456 | A run from the empty state after which the candidates have run out and the deposit of the one whose deal the seller cancelled is HELD, without a forfeiture |
| Histories.ContractCameTooEarly | internal/deals/deal/deal.go:178-212 | A run from the empty state that leaves the current deal of an open selection with a contract and without a confirmation |
| Announcements.EveryRunAnnounces | internal/deals/app/usecases.go:558-601 | In every state of every run each deal that waits for its payment, each finalized selection and each paid invoice has its event in the outbox: no event is lost |
| Announcements.StepFinalizes | internal/deals/app/handle_deal_invoice_paid.go:31-99 | A selection becomes final in no other way than by the payment of its current deal's invoice, from payment_requested, between two different companies |
| Announcements.StepConfirms | internal/deals/app/confirmations.go:101-158 | A deal becomes confirmed in no other way than by the approval of a waiting, unexpired request for it, from pending |
| DealsProgress.CancelledCurrentDealIsPassedIff | internal/integration/runtime/event_handlers.go:225-244 | For every cancelled current deal of an open selection the subscriber leaves the deal behind if and only if the reason is not PAYMENT_TIMEOUT |
| DealsProgress.DeclineSucceedsIff | internal/deals/app/usecases.go:247-312 | A decline succeeds exactly when the named deal is its selection's current one, is cancelled, and the selection is not exhausted; otherwise it is stale, or there is no winner left |
| DealsProgress.StillCurrent | internal/deals/deal/selection.go:65-78 | The current deal of an open selection has not been left behind, so a deal once left behind is never current again |
| DealsInvariants.FallbackFollowsRanking | internal/deals/app/usecases.go:168-386 | In any state that keeps the deals invariant: the k-th deal created is the k-th candidate's, as many deals as the cursor has passed, all for different companies |
| DealsInvariants.OneUncancelledDealPerAuction | internal/deals/app/usecases.go:247-386 | At most one deal of an auction is not cancelled |
| DealsInvariants.DealStatusImpliesSelection | internal/deals/app/usecases.go:569-597 | payment_requested implies confirmed, signed contract and a selection awaiting payment on that deal; paid and later imply a selection finalized on it; exhausted exactly when no deal is selected |
| DealsOutcomes.FallbackOutcome | internal/deals/app/usecases.go:314-386 | Falling back moves the cursor to the next candidate and opens its deal, or exhausts the selection behind the last one; it always succeeds and keeps the invariant, so the remaining candidates shrink each time |
| DealsOutcomes.CreateDealSelectionOutcome | internal/deals/app/usecases.go:168-227 | The first AuctionWon opens the first candidate's deal; a later one changes nothing |
| DealsOutcomes.HandleDealDeclinedOutcome | internal/deals/app/usecases.go:247-386 | A successful decline was of the cancelled current deal and falls back |
| DealsOutcomes.HandleDealInvoiceExpiredOutcome | internal/deals/app/handle_deal_invoice_expired.go:27-166 | An expired invoice leaves everything as it is, or cancels its deal for PAYMENT_TIMEOUT and falls back in one step; from payment_requested always the latter |
| DealsOutcomes.HandleDealInvoicePaidCases | internal/deals/app/handle_deal_invoice_paid.go:31-99 | With a matching payload, payment succeeds exactly from payment_requested (then paid and finalized) or paid (then unchanged) |
| DealsOutcomes.PaidForKeeps | internal/deals/app/handle_deal_invoice_paid.go:57-99 | Paying and finalizing in one transaction keeps the deals invariant |
| DealsOutcomes.CancelKeeps | internal/deals/deal/deal.go:364-447 | All four branches of a cancellation keep the invariant, and every event they emit is true of the state they leave |
| DealDomain.CancelForfeits | internal/deals/deal/deal.go:364-456 | A cancellation emits WinnerRejected only for a deal that is not paid yet, exactly by one of three routes: forfeiting reason while pending, payment timeout, or the buyer's own cancellation |
| DealsOutcomes.ApproveCases | internal/deals/app/confirmations.go:101-158 | Exactly what an approved request does for each stage; paid cannot be reached this way |
| DealsOutcomes.ApproveDealConfirmationKeeps | internal/deals/app/confirmations.go:101-158 | Approving a request (confirm, ship, complete or cancel) keeps the deals invariant and moves everything forward only |
| DealsOutcomes.PrepareContractKeeps | internal/deals/deal/deal.go:178-212 | Preparing a contract keeps the coupling even for a pending, unconfirmed deal |
| DealsOutcomes.SignContractKeeps | internal/deals/deal/deal.go:214-247 | Signing a contract keeps the deals invariant |
| DealsOutcomes.RequestPaymentKeeps | internal/deals/app/usecases.go:558-601 | Requesting payment keeps the invariant and emits a request that repeats the deal's parties and price |
| DealsOutcomes.RequestShipmentKeeps | internal/deals/deal/deal.go:304-324 | Requesting shipment keeps the deals invariant |
| DealsOutcomes.CancelDealKeeps | internal/deals/app/usecases.go:698-713 | The operator's cancellation keeps the deals invariant |
| DealsAnswers.CancelDealIff | internal/deals/deal/deal.go:364-456 | With every reason and status written out: when a cancellation is accepted, and that it emits WinnerRejected exactly for the three rejecting reasons (the legacy one recorded as ConfirmationTimeout), the payment timeout, and the buyer's own request before payment |
| DealsAnswers.PrepareContractIff | internal/deals/deal/deal.go:178-212 | A contract is prepared exactly for a pending or confirmed deal, with the given or a generated number; the rest of the state stays |
| DealsAnswers.SignContractIff | internal/deals/deal/deal.go:214-247 | Exactly a prepared contract is signed, by somebody and with a reference |
| DealsAnswers.RequestPaymentIff | internal/deals/app/usecases.go:558-601 | Payment is requested exactly for a confirmed deal with a signed contract, and the event repeats deal, parties, price and due time |
| DealsAnswers.RequestShipmentIff | internal/deals/deal/deal.go:304-324 | Exactly a paid deal is shipped |
| DealsAnswers.RequestDealConfirmationIff | internal/deals/app/confirmations.go:35-87 | A request is filed exactly by one of two different parties for a stage that the deal's status allows and for which no request waits; it is addressed to the other party |
| DealsAnswers.CreateDealSelectionIff | internal/deals/app/usecases.go:146-228 | When the first delivery of a result is accepted, and every field of the selection, the deal and the projection it leaves |
| DealsAnswers.HandleDealDeclinedIff | internal/deals/app/usecases.go:247-386 | A decline by auction, deal or both is accepted exactly for the cancelled current deal of a selection that is not exhausted; every field of the next deal and selection is determined |
| DealsAnswers.HandleDealInvoicePaidIff | internal/deals/app/handle_deal_invoice_paid.go:21-99 | For all arguments: a payment is accepted exactly by a paid deal, or by one in payment_requested for the right buyer, auction and sum, which is then paid with its selection final; a cancelled deal refuses every payment |
| DealsAnswers.HandleDealInvoiceExpiredIff | internal/deals/app/handle_deal_invoice_expired.go:27-166 | Which deals accept the expiry of their invoice, which change by it, and the whole state afterwards |
| DealDomain.Deal.Cancel | internal/deals/deal/deal.go:364-456 | The four branches of a cancellation: new state, events and error all determined |
| DealDomain.Deal.ApplyApprovedConfirmation | internal/deals/deal/deal.go:540-573 | Dispatches an approved request by its stage: new state, events and error all determined |
| DealDomain.DealConfirmation.Approve | internal/deals/deal/confirmation.go:158-189 | Only the counterparty answers, only while waiting; an expired request is marked and refused |
| DealDomain.DealConfirmation.Reject | internal/deals/deal/confirmation.go:191-224 | The same rules for a refusal |
| DealsStore.Store.CreateProjection | internal/deals/app/usecases.go:20-50 | Remembers the seller of an auction once |
| DealsStore.Store.CreateDealSelectionFromAuctionWon | internal/deals/app/usecases.go:146-228 | Load, create, validate, save and announce, step by step, commit exactly the state whose outcome CreateDealSelectionOutcome describes, or report exactly its error |
| DealsStore.Store.HandleDealDeclined | internal/deals/app/usecases.go:247-386 | The stepwise decline with its reopening commits exactly the state of HandleDealDeclinedOutcome, or reports exactly its error |
| DealsStore.Store.HandleDealInvoiceExpired | internal/deals/app/handle_deal_invoice_expired.go:27-166 | Cancel, reopen, advance and create in one transaction commit exactly the state of HandleDealInvoiceExpiredOutcome |
| DealsStore.Store.HandleDealInvoicePaid | internal/deals/app/handle_deal_invoice_paid.go:21-99 | Pay and finalize commit exactly the state of HandleDealInvoicePaidCases |
| DealsStore.Store.PrepareContract | internal/deals/app/usecases.go:508-521 | Commits exactly the state of PrepareContractKeeps |
| DealsStore.Store.SignContract | internal/deals/app/usecases.go:534-545 | Commits exactly the state of SignContractKeeps |
| DealsStore.Store.RequestPayment | internal/deals/app/usecases.go:558-601 | Commits exactly the state of RequestPaymentKeeps, after checking the selection |
| DealsStore.Store.RequestShipment | internal/deals/app/usecases.go:638-643 | Commits exactly the state of RequestShipmentKeeps |
| DealsStore.Store.CancelDeal | internal/deals/app/usecases.go:698-713 | Commits exactly the state of CancelDealKeeps |
| DealsStore.Store.RequestDealConfirmation | internal/deals/app/confirmations.go:35-87 | Files a request unless one is waiting for the same deal and stage |
| DealsStore.Store.AppendAuctionWinnerConfirmedIfNeeded | internal/deals/app/usecases.go:739-777 | A deal just confirmed moves its selection to awaiting payment and announces the winner |
| DealsStore.Store.ApproveDealConfirmation | internal/deals/app/confirmations.go:101-158 | Commits exactly the state of ApproveCases |
| DealsStore.Store.RejectDealConfirmation | internal/deals/app/confirmations.go:172-217 | Marks the request rejected and nothing else |
| BillingOutcomes.SettleOutcome | internal/billing/app/settle_winner_deposit_after_invoice_paid.go:54-166 | Settling a HELD deposit succeeds exactly when the invoice charged the uncovered part of the fee; it keeps min(fee, deposit), gives back the rest, sets the matching status, and the branch that keeps nothing of a positive fee is dead |
| BillingOutcomes.CaptureFeeOutcome | internal/billing/app/capture_platform_fee_from_deposit.go:31-193 | The second fee implementation always succeeds on a HELD deposit and makes the same split |
| BillingOutcomes.FeeSplitsAgree | internal/billing/app/capture_platform_fee_from_deposit.go:64-193 | Both fee implementations end with the same balances and deposits and the same ledger sum on every meter, released and captured included |
| BillingOutcomes.FinalizeOutcome | internal/integration/runtime/event_handlers.go:415-450 | The settlement transaction on a paid, matching invoice with a HELD deposit succeeds and settles the auction |
| BillingOutcomes.CreateDealInvoiceKeeps | internal/billing/app/create_deal_invoice.go:67-166 | One invoice per deal, charging the part of the fee a HELD deposit does not cover |
| BillingOutcomes.ConfirmDealInvoicePaidKeeps | internal/billing/app/confirm_deal_invoice_paid.go:25-62 | Paying an invoice keeps the billing invariant |
| BillingOutcomes.ExpireDealInvoiceKeeps | internal/billing/app/expire_deal_invoice.go:28-65 | Expiring an invoice keeps the billing invariant |
| BillingOutcomes.PaidAndExpiredExclude | internal/billing/wallet/deal_invoice.go:109-144 | No invoice is ever announced both as paid and as expired |
| BillingOutcomes.CreateSellerPayoutKeeps | internal/billing/app/create_seller_payout.go:46-130 | One payout per deal, of the paid invoice's goods |
| BillingOutcomes.MarkSellerPayoutPaidOutcome | internal/billing/app/mark_seller_payout_paid.go:60-193 | From READY the seller is credited the amount with one line, PAID is repeated harmlessly, everything else is refused; both repair branches are dead |
| BillingOutcomes.PaidMeansCredited | internal/billing/app/mark_seller_payout_paid.go:69-135 | A payout is PAID exactly when its credit line exists |
| BillingOutcomes.MarkSellerPayoutReadyKeeps | internal/billing/app/mark_seller_payout_ready.go:28-64 | Readying a payout keeps the billing invariant |
| BillingOutcomes.MarkSellerPayoutFailedKeeps | internal/billing/app/mark_seller_payout_failed.go:26-41 | Failing a payout keeps the billing invariant |
| BillingInvariants.HeldHasNoEndingLine | internal/billing/app/settle_winner_deposit_after_invoice_paid.go:255-272 | A HELD deposit has none of the nine ledger lines that end one, so the already-recorded guards are never taken |
| BillingInvariants.HeldIsCovered | internal/billing/wallet/account.go:77-99 | The account behind a HELD deposit holds at least its amount: releasing or capturing it never lacks held money |
| BillingInvariants.ReserveKeeps | internal/billing/app/reserve_auction_deposit.go:39-127 | Reserving creates the deposit once, HELD, of the amount the start price asks for, and keeps the billing invariant |
| BillingInvariants.CaptureOutcome | internal/billing/app/capture_auction_deposit.go:31-98 | Capturing succeeds exactly from HELD (taking exactly the deposit from held) or CAPTURED (unchanged) |
| BillingInvariants.ReleaseOutcome | internal/billing/app/release_auction_deposit.go:31-98 | Releasing succeeds exactly from HELD (the total stays) or RELEASED (unchanged) |
| BillingInvariants.ReleaseExceptOutcome | internal/billing/app/release_auction_deposits_except_candidates.go:46-146 | The release of the losers never fails and frees exactly the HELD deposits of that auction outside the candidates |
| BillingInvariants.ConfirmTopUpKeeps | internal/billing/app/confirm_top_up.go:39-88 | Crediting a payment keeps the billing invariant |
| BillingInvariants.ConfirmTopUpCredits | internal/billing/app/confirm_top_up.go:39-88 | A fresh payment raises exactly its company's available balance by exactly the amount, with one new line of exactly the amount; for no other payment does the credited sum change |
| BillingInvariants.ConfirmTopUpByProviderKeeps | internal/billing/app/confirm_top_up_by_provider.go:49-66 | Confirming a top-up keeps status and credit coupled |
| BillingInvariants.HeldSumUpdate | internal/billing/wallet/account.go:57-99 | The sum of HELD deposits, defined without an order, moves by exactly the changed deposit |
| BillingAnswers.ConfirmTopUpByProviderIff | internal/billing/app/confirm_top_up_by_provider.go:26-66 | A provider's confirmation is accepted exactly for a stored top-up of the same amount, or one that succeeded already; the whole new state is determined |
| BillingAnswers.ReserveForBidIff | internal/billing/app/reserve_auction_deposit.go:39-127 | A deposit is reserved exactly if it is HELD already, or the available balance covers five percent of the start price, at least one; balances and deposits are then determined |
| BillingAnswers.CaptureAuctionDepositIff | internal/billing/app/capture_auction_deposit.go:31-98 | Capturing is accepted exactly for a stored deposit that is HELD, which takes exactly its amount out of the held balance, or CAPTURED, which changes nothing |
| BillingAnswers.ReleaseAuctionDepositIff | internal/billing/app/release_auction_deposit.go:31-98 | Releasing is accepted exactly for a stored deposit that is HELD, which makes exactly its amount available again, or RELEASED, which changes nothing |
| BillingAnswers.ReleaseExceptCandidatesIff | internal/billing/app/release_auction_deposits_except_candidates.go:46-146 | The release of the losers is refused exactly for a blank auction or a blank candidate |
| BillingAnswers.SettleWinnerDepositIff | internal/billing/app/settle_winner_deposit_after_invoice_paid.go:54-166 | Settling is accepted exactly for a stored deposit and a positive price, and against a HELD one exactly for the rest of the fee; one that is not HELD changes nothing |
| BillingAnswers.CapturePlatformFeeIff | internal/billing/app/capture_platform_fee_from_deposit.go:31-193 | The second implementation is accepted exactly on a HELD deposit, or once its line is written, when it changes nothing |
| BillingAnswers.CapturedFeeStays | internal/billing/app/capture_platform_fee_from_deposit.go:31-249 | Capturing the fee twice is capturing it once |
| BillingAnswers.FinalizeAuctionIff | internal/integration/runtime/event_handlers.go:404-451 | The settlement of an auction is accepted exactly for a paid invoice that the event repeats in auction, buyer, goods and fee, with a stored deposit of the buyer and, while that is HELD, exactly the rest of the fee |
| BillingAnswers.ConfirmDealInvoicePaidIff | internal/billing/app/confirm_deal_invoice_paid.go:25-62 | Exactly a waiting or paid invoice is accepted as paid; a waiting one becomes PAID with one event, a paid one changes nothing |
| BillingAnswers.ExpireDealInvoiceIff | internal/billing/app/expire_deal_invoice.go:28-65 | An invoice is expired exactly if it is paid or expired already, or waiting and due; only in the last case it changes, with its event |
| BillingAnswers.CreateSellerPayoutIff | internal/billing/app/create_seller_payout.go:46-130 | A payout is accepted exactly once per deal for a paid invoice that the command repeats, and is then pending over its goods |
| BillingAnswers.MarkSellerPayoutReadyIff | internal/billing/app/mark_seller_payout_ready.go:28-64 | Exactly pending, ready and paid payouts are accepted, and only a pending one changes |
| BillingAnswers.MarkSellerPayoutFailedIff | internal/billing/app/mark_seller_payout_failed.go:26-41 | Exactly payouts that are not paid are failed |
| Wallet.ReserveThenReleaseOrCapture | internal/billing/wallet/account.go:65-99 | Release undoes Reserve; Capture after Reserve loses exactly the amount |
| BillingStore.Store.CreateAccount | internal/billing/app/create_account.go:25-51 | Creates an empty account once |
| BillingStore.Store.ConfirmTopUp | internal/billing/app/confirm_top_up.go:39-88 | Inserts the payment, credits and writes the line exactly as ConfirmTopUpKeeps assumes, or reports the error |
| BillingStore.Store.CreateTopUp | internal/billing/app/create_top_up.go:45-87 | Makes sure of the account and stores a pending top-up |
| BillingStore.Store.ConfirmTopUpByProvider | internal/billing/app/confirm_top_up_by_provider.go:26-66 | Confirms and then marks the top-up |
| BillingStore.Store.ReserveAuctionDeposit | internal/billing/app/reserve_auction_deposit.go:39-127 | Object by object commits exactly the state of ReserveKeeps |
| BillingStore.Store.CaptureAuctionDeposit | internal/billing/app/capture_auction_deposit.go:31-98 | Commits exactly the state of CaptureOutcome |
| BillingStore.Store.ReleaseAuctionDeposit | internal/billing/app/release_auction_deposit.go:31-98 | Commits exactly the state of ReleaseOutcome |
| BillingStore.Store.ReleaseAuctionDepositsExceptCandidates | internal/billing/app/release_auction_deposits_except_candidates.go:46-146 | The set-building loops and the release loop over the listed rows commit exactly the state of ReleaseExceptOutcome |
| BillingStore.Store.SettlementAlreadyRecorded | internal/billing/app/settle_winner_deposit_after_invoice_paid.go:255-272 | The guard loop finds one of the four settlement lines exactly when there is one |
| BillingStore.Store.SettleWinnerDeposit | internal/billing/app/settle_winner_deposit_after_invoice_paid.go:54-198 | Commits exactly the state of SettleOutcome; the full-release branch is never reached |
| BillingStore.Store.CapturePlatformFeeFromDeposit | internal/billing/app/capture_platform_fee_from_deposit.go:31-249 | Commits exactly the state of CaptureFeeOutcome |
| BillingStore.Store.CreateDealInvoice | internal/billing/app/create_deal_invoice.go:67-166 | Commits exactly the state of CreateDealInvoiceKeeps |
| BillingStore.Store.ConfirmDealInvoicePaid | internal/billing/app/confirm_deal_invoice_paid.go:25-62 | PAYMENT_PENDING to PAID with its event; PAID again is nil, the other ends are refused |
| BillingStore.Store.ExpireDealInvoice | internal/billing/app/expire_deal_invoice.go:28-65 | PAYMENT_PENDING to EXPIRED with its event once due; PAID and EXPIRED are nil |
| BillingStore.Store.CreateSellerPayout | internal/billing/app/create_seller_payout.go:46-130 | Commits exactly the state of CreateSellerPayoutKeeps |
| BillingStore.Store.MarkSellerPayoutReady | internal/billing/app/mark_seller_payout_ready.go:28-64 | PENDING to READY, READY and PAID unchanged, the rest refused |
| BillingStore.Store.MarkSellerPayoutFailed | internal/billing/app/mark_seller_payout_failed.go:26-41 | PENDING or READY to FAILED, FAILED unchanged, the rest refused |
| BillingStore.Store.MarkSellerPayoutPaid | internal/billing/app/mark_seller_payout_paid.go:60-193 | All branches, repair branches included, commit exactly the state of MarkSellerPayoutPaidOutcome |
| Money.DepositFromStartPrice | internal/billing/app/helpers.go:29-35 | Five percent rounded down, at least one unit exactly when there is a start price |
| Money.PlatformFee | internal/billing/app/helpers.go:37-42 | Three percent rounded down, zero exactly below 34, never the whole price |
| Money.ReferenceTextInjective | internal/billing/app/helpers.go:21-27 | The texts of two ledger references of one company and row type coincide only for the same auction and suffix |
| Ledger.InMinusOut | internal/billing/wallet/ledger_entry.go:7-16 | Reserving and releasing only move money between the balances: their sum is money in minus money out |
| AuctionRuns.RunLaws | internal/trading/auction/auction.go:105-138 | Every accepted run of bids: the first is at least the start price, each later one at least the step higher, price and leader are the last bid's, the end is exactly the later of the scheduled end and five minutes after any bid, nothing else changes |
| AuctionRuns.RunAcceptedIff | internal/trading/auction/auction.go:105-138 | A run of valid bids is accepted if and only if each is placed from the start on, no later than the scheduled end or five minutes after an earlier bid, and offers the start price, or the last amount plus the step |
| AuctionRuns.NextBidAcceptedIff | internal/trading/auction/auction.go:105-138 | The same for one more bid after any accepted run |
| AuctionRuns.AttemptedIsReplay | internal/trading/auction/auction.go:105-138 | Whatever bids were attempted, the auction is the replay of the accepted ones |
| AuctionRuns.RankingIsReverse | internal/trading/auction/auction.go:243-260 | Bids of an accepted run have exactly one ranking: the reverse of their acceptance |
| AuctionRuns.WinnersAreLastThree | internal/trading/auction/auction.go:241-287 | The winners of accepted bids are exactly the bidders of the last three bids, each once, in the order of their latest bids |
| AuctionRuns.CloseAgreesWithLeader | internal/trading/auction/auction.go:140-172 | Closing derives the winner again from the stored bids in any order and finds the leader and price the auction already had |
| AuctionRuns.ReachableRehydrates | internal/trading/auction/rehydrate.go:5-47 | An auction that has taken bids loads back as itself exactly while its end is a set time, which it is whenever its start is after the zero time |
| AuctionDomain.SortForCloseRanking | internal/trading/auction/auction.go:243-260 | For any bids in any order: a permutation ordered by amount descending, time ascending |
| AuctionDomain.DetermineWinner | internal/trading/auction/winner.go:3-18 | The loop finds the best bid, the first among equals, or none for no bids |
| AuctionDomain.WinnerIsBest | internal/trading/auction/winner.go:3-18 | The winner is one of the bids and no bid is better |
| AuctionDomain.WinnerOfRanking | internal/trading/auction/auction.go:154-156 | The winner of a ranking is its head and equals the winner of the unsorted bids in amount and time |
| AuctionDomain.CollectWinnerCompanyIDs | internal/trading/auction/auction.go:262-287 | The loop collects the candidates of the top three rows |
| AuctionDomain.FirstAppearancesLaws | internal/trading/auction/auction.go:262-287 | For any rows the candidates are exactly their non-blank bidders, each once, in the order of their first rows |
| AuctionDomain.FirstCandidate | internal/trading/auction/auction.go:262-287 | The first candidate is the bidder of the first row |
| AuctionDomain.WinnerRecordsFromBids | internal/trading/app/usecases.go:332-350 | The first rows numbered from one |
| AuctionDomain.Auction.PlaceBid | internal/trading/auction/auction.go:105-138 | Accepts a bid in time and high enough, and extends the end; otherwise its error and no change |
| AuctionDomain.Auction.Close | internal/trading/auction/auction.go:140-172 | Without bids cancels; with bids closes on some ranking of them with its result; otherwise its error and no change |
| TradingInvariants.WonFacts | internal/trading/app/usecases.go:224-264 | An announced result has at least one candidate, all different, each with a bid, the leader first, and a positive price not below the start price |
| TradingInvariants.PlaceBidKeeps | internal/trading/app/usecases.go:143-195 | After a bid the stored auction is still the replay of its stored bids |
| TradingInvariants.CloseAuctionOutcome | internal/trading/app/usecases.go:224-264 | Closing a published auction cancels it without bids, or announces exactly one result and stores the top three rows |
| TradingAnswers.CreateAuctionIff | internal/trading/app/usecases.go:29-60 | Exactly when a new auction is accepted and the draft it becomes; an existing one stays as it is |
| TradingAnswers.PublishAuctionIff | internal/trading/app/usecases.go:75-104 | Exactly a stored draft whose end is a set time is published; nothing but its state and one event changes |
| TradingAnswers.PlaceBidIff | internal/trading/app/usecases.go:143-195 | In every state that keeps the trading invariant a bid is accepted exactly if the auction is published, the bid in time and high enough over the stored bids; price, leader, end, bids and event are then determined |
| TradingAnswers.CloseAuctionIff | internal/trading/app/usecases.go:224-264 | A published auction is closed exactly if its end has come, it has no bids, or the command is privileged; both outcomes are determined |
| TradingAnswers.PlacesRecorded | internal/trading/app/usecases.go:332-350 | The recorded places are the last three bids, newest first, numbered from one |
| TradingAnswers.SellerCancelAuctionIff | internal/trading/app/usecases.go:281-299 | A seller cancels exactly a draft, or a published auction without stored bids |
| TradingAnswers.AdminCancelAuctionIff | internal/trading/app/usecases.go:312-330 | An administrator cancels exactly a draft or a published auction |
| TradingStore.Store.CreateAuction | internal/trading/app/usecases.go:29-60 | Creates a draft once; a non-positive step counts as one |
| TradingStore.Store.PublishAuction | internal/trading/app/usecases.go:75-104 | Publishes a draft |
| TradingStore.Store.PlaceBid | internal/trading/app/usecases.go:143-195 | Accepts the bid, makes sure of the account and reserves the deposit in one transaction; the first error of the three is reported |
| TradingStore.Store.CloseAuction | internal/trading/app/usecases.go:224-264 | Refuses an early close with bids unless privileged; otherwise commits the state of CloseAuctionOutcome |
| TradingStore.Store.SellerCancelAuction | internal/trading/app/usecases.go:281-299 | Cancels without bids only |
| TradingStore.Store.AdminCancelAuction | internal/trading/app/usecases.go:312-330 | Cancels a draft or published auction |
| RelayRuns.RunKeepsRows | internal/infra/outbox/relay.go:136-159 | Over every run of rounds with any faults: at most five recorded failures, given up exactly at the fifth, never both given up and published |
| RelayRuns.PublishedMeansHandled | internal/infra/outbox/relay.go:72-133 | A message becomes published in a round only if it was eligible, decoded, and every subscriber accepted it in that very round |
| RelayRuns.OutcomesAreFinal | internal/infra/outbox/postgres/repository.go:21-108 | A published or given-up message never changes again, and attempts never go down |
| RelayRuns.AcceptedOrRedelivered | internal/infra/outbox/relay.go:55-134 | In a round with any faults, recording and marking included, every message that all subscribers accepted is published, or is eligible again once its lock has run out; a round without error publishes it |
| RelayRuns.MarkedUpToFault | internal/infra/outbox/postgres/repository.go:84-96 | Marking publishes exactly the messages before the first that cannot be marked, and names that one in its error |
| RelayRuns.AbortedRoundRedelivers | internal/infra/outbox/relay.go:80-100 | When a failure cannot be recorded nothing of the round is published, and messages every subscriber had accepted are eligible again once their lock has run out |
| RelayedDeliveries.PublishedStaysDone | internal/infra/outbox/relay.go:72-133 | In every combined run of the relay, with any faults, and the system from the empty state, whose subscribers fail exactly if one of their transactions does not commit: everything a published message asks of its settlement subscriber is done, and stays done |
| RelayedDeliveries.HandlerReturnsNilIff | internal/integration/runtime/event_handlers.go:211-451 | A handler that behaves as proved of EventHandlers.Runtime returns nil if and only if its transaction commits |
| RelayedDeliveries.Register | internal/integration/runtime/event_handlers.go:267-320 | Subscribes the settlement handlers to their seven event types and changes no other subscription |
| Relay.Repository.Add | internal/deals/postgres/outbox_repository.go:26-70 | A new message comes last, with no attempts, unpublished and unlocked |
| Relay.Repository.ListUnpublished | internal/infra/outbox/postgres/repository.go:21-82 | The first eligible messages in creation order, up to the limit, and all of them if fewer; locked now; a failing statement changes nothing, an error while the rows are read leaves them locked |
| RelayRuns.FaultlessRound | internal/infra/outbox/relay.go:55-134 | Without repository faults every message of the batch is published if all subscribers accepted it, and otherwise has one more recorded attempt |
| RelayRuns.RoundFate | internal/infra/outbox/relay.go:55-134 | A round leaves a message alone, locks it, publishes it after a successful dispatch, or records one failed dispatch |
| RelayRuns.BatchTakesOldest | internal/infra/outbox/postgres/repository.go:21-36 | A batch holds waiting messages only (neither published nor given up, and not locked within the last minute), all of them if it is not full, and none before an older one that waits |
| RelayRuns.LockedThroughRun | internal/infra/outbox/postgres/repository.go:21-36 | Over every run of rounds a message that was taken stays exactly as it was left for a minute |
| RelayRuns.RoundReportsFirstFailure | internal/infra/outbox/relay.go:55-134 | Without repository faults a round returns the error of its first failing message, and nil exactly if none fails |
| Relay.Relay.RunOnce | internal/infra/outbox/relay.go:55-134 | List, dispatch, record and mark commit exactly the round's table and return exactly its error |
| Relay.Relay.DispatchBatch | internal/infra/outbox/relay.go:72-128 | The loop over the batch, up to its end or the first failure that cannot be recorded |
| Relay.Relay.RecordFailure | internal/infra/outbox/relay.go:136-159 | One more attempt, failed at the fifth |
| Relay.Repository.MarkPublished | internal/infra/outbox/postgres/repository.go:84-96 | Marks in order up to the first database error |
| Relay.Repository.RecordFailure | internal/infra/outbox/postgres/repository.go:98-108 | Stores attempts and failure time of one message |
| Relay.Bus.Publish | internal/infra/eventbus/inmemory/bus.go:33-77 | Calls every subscriber even after a failure and succeeds exactly if all of them do |
| Relay.Bus.Subscribe | internal/infra/eventbus/inmemory/bus.go:23-31 | Adds the subscriber last, and for its event type only |

## Left out

- HTTP, authentication, e-mail, configuration, logging, migrations and the frontend: input and output around the model.
- SQL text and JSON encoding: repositories are maps with their keys, messages are values.
- Catalog read model and LotPublished: the auction, its publication and the deal projection are separate steps; the
  catalog's own state is not part of this model.
- Chain anchoring and its hashes: mostly remote calls.
- Events that no modelled subscriber reads (account, deposit and payout announcements), row timestamps, ledger reason
  texts, document links, snapshots and verification methods.
- Deadlines stored on a deal: nothing but the scheduler reads them; its cancellations are `CancelStep` with any reason.
- UpdateDealPrice: it refuses every auction deal, and the wired flow creates no other kind.
- CreateDealFromAuctionWon, MarkDealPaid, ConfirmDeal, MarkDealShipped, CompleteDeal: not wired; the domain methods behind
  the last four are modelled.
- Who may call a command (roles, ownership), except the participant and counterparty rules of confirmations.
- TopUp.MarkFailed and the cancelled and failed invoice statuses: no wired operation reaches them.
- Concurrency inside the relay (SKIP LOCKED with several relays) and inside the bus.
- AuctionDomain.SortForCloseRanking: the library sort is replaced by an insertion sort; only "ordered permutation" is
  promised, and nothing is proved from more.
