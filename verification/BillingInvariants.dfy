/**
 What every billing operation keeps: balances agree with the HELD deposits and with the ledger,
 every deposit and payout is accounted for line by line.
 */
module BillingInvariants {
  import opened Common
  import opened Money
  import opened Wallet
  import opened Ledger
  import opened BillingRules

  // ---------- the sum of the HELD deposits of a company ----------

  function HeldPart(k: DepositKey, row: DepositRow, company: CompanyId): nat {
    if k.company == company && row.status == HELD then row.amount else 0
  }

  ghost function Pick(deposits: map<DepositKey, DepositRow>): (k: DepositKey)
    requires deposits != map[]
    ensures k in deposits
  {
    var k :| k in deposits; k
  }

  ghost function HeldSum(deposits: map<DepositKey, DepositRow>, company: CompanyId): nat
    decreases |deposits|
  {
    if deposits == map[] then 0
    else
      var k := Pick(deposits);
      HeldPart(k, deposits[k], company) + HeldSum(deposits - {k}, company)
  }

  // The sum does not depend on the order in which deposits are visited.
  lemma {:induction false} HeldSumSplit(deposits: map<DepositKey, DepositRow>, k: DepositKey, company: CompanyId)
    requires k in deposits
    ensures HeldSum(deposits, company) == HeldPart(k, deposits[k], company) + HeldSum(deposits - {k}, company)
    decreases |deposits|
  {
    var p := Pick(deposits);
    if p != k {
      HeldSumSplit(deposits - {p}, k, company);
      HeldSumSplit(deposits - {k}, p, company);
      assert deposits - {p} - {k} == deposits - {k} - {p};
    }
  }

  lemma HeldSumUpdate(deposits: map<DepositKey, DepositRow>, k: DepositKey, row: DepositRow, company: CompanyId)
    ensures HeldSum(deposits[k := row], company)
         == HeldSum(deposits, company) + HeldPart(k, row, company)
          - (if k in deposits then HeldPart(k, deposits[k], company) else 0)
  {
    var after := deposits[k := row];
    HeldSumSplit(after, k, company);
    if k in deposits {
      HeldSumSplit(deposits, k, company);
      assert after - {k} == deposits - {k};
    } else {
      assert after - {k} == deposits;
    }
  }

  // ---------- the invariant ----------

  function BalanceOf(b: Billing, company: CompanyId): Balance {
    if company in b.accounts then b.accounts[company] else Balance(0, 0)
  }

  ghost predicate HoldsMatchDeposits(b: Billing) {
    forall c: CompanyId :: BalanceOf(b, c).held == HeldSum(b.deposits, c)
  }

  ghost predicate LedgerExplainsBalances(b: Billing) {
    forall c: CompanyId ::
      BalanceOf(b, c).available == Sum(Available(c), b.ledger) && BalanceOf(b, c).held == Sum(OnHold(c), b.ledger)
  }

  // The ledger lines about one deposit: set aside once, and once it has left HELD given back or kept in full.
  predicate DepositAudited(b: Billing, k: DepositKey) {
    var reserved := Sum(ReservedFor(k.auction, k.company), b.ledger);
    var released := Sum(ReleasedFor(k.auction, k.company), b.ledger);
    var captured := Sum(CapturedFor(k.auction, k.company), b.ledger);
    if k !in b.deposits then reserved == released == captured == 0
    else
      var d := b.deposits[k];
      && k.auction != NO_ID && k.company != NO_ID && k.company in b.accounts
      && reserved == d.amount > 0
      && match d.status {
           case HELD => released == captured == 0
           case RELEASED => released == d.amount && captured == 0
           case CAPTURED => captured == d.amount && released == 0
           case SETTLED => released > 0 && captured > 0 && released + captured == d.amount
         }
  }

  ghost predicate DepositsAudited(b: Billing) {
    forall k: DepositKey :: DepositAudited(b, k)
  }

  predicate PayoutAudited(b: Billing, d: DealId) {
    var paid := d in b.payouts && b.payouts[d].status == PayoutPaid;
    && Sum(CreditLines(d), b.ledger) == (if paid then 1 else 0)
    && Sum(CreditedFor(d), b.ledger) == (if paid then b.payouts[d].amount else 0)
    && (d in b.payouts ==>
          var p := b.payouts[d];
          && p.deal == d && p.amount > 0 && p.status != PayoutCancelled && p.auction != NO_ID
          && d in b.invoices && b.invoices[d].status == InvoicePaid
          && p.auction == b.invoices[d].auction && p.buyer == b.invoices[d].buyer
          && p.seller == b.invoices[d].seller && p.amount == b.invoices[d].goods
          && (paid ==> Sum(CreditsTo(d, p.seller), b.ledger) == 1))
  }

  ghost predicate PayoutsAudited(b: Billing) {
    forall d: DealId :: PayoutAudited(b, d)
  }

  // Every processed payment was credited by exactly one line, and no other payment was.
  ghost predicate PaymentsAudited(b: Billing) {
    forall p: PaymentId :: Sum(TopUpLines(p), b.ledger) == (if p in b.processed then 1 else 0)
  }

  // A top-up has succeeded exactly when its payment was processed, which credited its company with exactly its amount.
  ghost predicate TopUpsCoupled(b: Billing) {
    forall p | p in b.topUps ::
      && b.topUps[p].amount > 0 && b.topUps[p].company in b.accounts && p != NO_ID
      && b.topUps[p].status in {TopUpPending, TopUpSucceeded}
      && (b.topUps[p].status == TopUpSucceeded <==> p in b.processed)
      && (b.topUps[p].status == TopUpSucceeded ==> Sum(ToppedUp(p, b.topUps[p].company), b.ledger) == b.topUps[p].amount)
  }

  predicate InvoiceWellFormed(d: DealId, i: InvoiceRow) {
    && i.deal == d && d != NO_ID
    && i.buyer != NO_ID && i.seller != NO_ID && i.buyer != i.seller
    && i.goods > 0 && i.feeDue >= 0 && i.total == i.goods + i.feeDue
    && i.status in {InvoicePaymentPending, InvoicePaid, InvoiceExpired}
  }

  predicate EventBacked(b: Billing, e: BillingEvent) {
    match e
    case DealInvoicePaid(d, a, buyer, goods, feeDue, amount) =>
      && d in b.invoices
      && var i := b.invoices[d];
         && i.status == InvoicePaid && i.auction == a && i.buyer == buyer
         && i.goods == goods && i.feeDue == feeDue && i.total == amount
    case DealInvoiceExpired(d, a, buyer, amount) =>
      && d in b.invoices
      && var i := b.invoices[d];
         i.status == InvoiceExpired && i.auction == a && i.buyer == buyer && i.total == amount
  }

  ghost predicate InvoicesBacked(b: Billing) {
    && (forall d | d in b.invoices :: InvoiceWellFormed(d, b.invoices[d]))
    && (forall e | e in b.outbox :: EventBacked(b, e))
  }

  ghost predicate MoneyInv(b: Billing) {
    && AllPositive(b.ledger)
    && NO_ID !in b.accounts
    && HoldsMatchDeposits(b)
    && LedgerExplainsBalances(b)
    && DepositsAudited(b)
    && PayoutsAudited(b)
    && PaymentsAudited(b)
    && InvoicesBacked(b)
  }

  ghost predicate BillingInv(b: Billing) {
    MoneyInv(b) && TopUpsCoupled(b)
  }

  lemma EmptyBillingInv()
    ensures BillingInv(NO_BILLING)
  {
  }

  // ---------- consequences ----------

  // Every line that ends a deposit, wherever it is written.
  function EndingKeys(k: DepositKey): set<Key> {
    {CaptureKey(k), ReleaseKey(k), SettleFeeKey(k), SettleReleaseKey(k, Remainder), SettleReleaseKey(k, FullRelease),
     SettleReleaseKey(k, FeeZero), FeeLineKey(k), FeeZeroKey(k), FeeRemainderKey(k)}
  }

  // A HELD deposit has no ledger line that ends it, so the "line already exists" guards are never taken.
  lemma HeldHasNoEndingLine(b: Billing, k: DepositKey)
    requires BillingInv(b) && k in b.deposits && b.deposits[k].status == HELD
    ensures forall key | key in EndingKeys(k) :: !Exists(b.ledger, key)
  {
    assert DepositAudited(b, k);
    forall key | key in EndingKeys(k)
      ensures !Exists(b.ledger, key)
    {
      NoLineWithKey(if key.kind == BidDepositReleased then ReleasedFor(k.auction, k.company) else CapturedFor(k.auction, k.company),
                    b.ledger, key);
    }
  }

  // A HELD deposit is covered by what its company has on hold, so releasing or capturing it cannot fail.
  lemma HeldIsCovered(b: Billing, k: DepositKey)
    requires BillingInv(b) && k in b.deposits && b.deposits[k].status == HELD
    ensures k.auction != NO_ID && k.company != NO_ID
    ensures k.company in b.accounts && 0 < b.deposits[k].amount <= b.accounts[k.company].held
    ensures b.accounts[k.company].Release(b.deposits[k].amount).Ok?
    ensures b.accounts[k.company].Capture(b.deposits[k].amount).Ok?
  {
    assert DepositAudited(b, k);
    assert BalanceOf(b, k.company).held == HeldSum(b.deposits, k.company);
    HeldSumSplit(b.deposits, k, k.company);
  }

  // ---------- facts that, once true, stay true ----------

  // Rows never disappear; a deposit that has left HELD, a paid or expired invoice and a paid payout never change again.
  ghost predicate BillingAdvances(b: Billing, b': Billing) {
    && b.accounts.Keys <= b'.accounts.Keys
    && b.processed <= b'.processed
    && b.outbox <= b'.outbox
    && (forall k | k in b.deposits :: DepositAdvances(b, b', k))
    && (forall d | d in b.invoices :: d in b'.invoices && InvoiceAdvances(b.invoices[d], b'.invoices[d]))
    && (forall d | d in b.payouts :: d in b'.payouts && PayoutAdvances(b.payouts[d], b'.payouts[d]))
  }

  predicate DepositAdvances(b: Billing, b': Billing, k: DepositKey)
    requires k in b.deposits
  {
    && k in b'.deposits
    && b'.deposits[k].amount == b.deposits[k].amount
    && (b.deposits[k].status != HELD ==>
          && b'.deposits[k] == b.deposits[k]
          && Sum(ReleasedFor(k.auction, k.company), b'.ledger) == Sum(ReleasedFor(k.auction, k.company), b.ledger)
          && Sum(CapturedFor(k.auction, k.company), b'.ledger) == Sum(CapturedFor(k.auction, k.company), b.ledger))
  }

  predicate InvoiceAdvances(i: InvoiceRow, i': InvoiceRow) {
    && i' == i.(status := i'.status)
    && (i.status in {InvoicePaid, InvoiceExpired} ==> i' == i)
  }

  predicate PayoutAdvances(p: PayoutRow, p': PayoutRow) {
    && p' == p.(status := p'.status)
    && (p.status in {PayoutPaid, PayoutFailed} ==> p' == p)
  }

  lemma BillingAdvancesReflexive(b: Billing)
    ensures BillingAdvances(b, b)
  {
  }

  lemma BillingAdvancesTransitive(b0: Billing, b1: Billing, b2: Billing)
    requires BillingAdvances(b0, b1) && BillingAdvances(b1, b2)
    ensures BillingAdvances(b0, b2)
  {
    hide Sum;
    forall k | k in b0.deposits
      ensures DepositAdvances(b0, b2, k)
    {
      assert DepositAdvances(b0, b1, k) && DepositAdvances(b1, b2, k);
    }
  }

  // The tables an operation on deposits leaves alone.
  predicate SamePapers(b: Billing, b': Billing) {
    b'.invoices == b.invoices && b'.payouts == b.payouts && b'.outbox == b.outbox && b'.topUps == b.topUps && b'.processed == b.processed
  }

  // ---------- preservation ----------

  // The effect on every meter of ending deposit k by releasing and capturing the given amounts.
  function SplitReading(m: Meter, k: DepositKey, release: int, capture: int): int {
    match m
    case Available(c) => if c == k.company then release else 0
    case OnHold(c) => if c == k.company then -release - capture else 0
    case ReleasedFor(a, c) => if DepositKey(a, c) == k then release else 0
    case CapturedFor(a, c) => if DepositKey(a, c) == k then capture else 0
    case _ => 0
  }

  ghost predicate Splits(before: seq<Entry>, after: seq<Entry>, k: DepositKey, release: int, capture: int) {
    && AllPositive(after)
    && forall m: Meter :: Sum(m, after) == Sum(m, before) + SplitReading(m, k, release, capture)
  }

  predicate StatusFits(status: DepositStatus, amount: nat, release: int, capture: int) {
    match status
    case HELD => false
    case RELEASED => release == amount && capture == 0
    case CAPTURED => release == 0 && capture == amount
    case SETTLED => release > 0 && capture > 0 && release + capture == amount
  }

  // Payouts and invoices do not notice a change of deposits.
  lemma PapersKept(b: Billing, b': Billing)
    requires MoneyInv(b)
    requires b'.payouts == b.payouts && b'.invoices == b.invoices && b'.outbox == b.outbox
    requires forall m: Meter | m.CreditLines? || m.CreditedFor? || m.CreditsTo? :: Sum(m, b'.ledger) == Sum(m, b.ledger)
    ensures PayoutsAudited(b') && InvoicesBacked(b')
  {
    hide Sum, HeldSum;
    forall d: DealId
      ensures PayoutAudited(b', d)
    {
      assert PayoutAudited(b, d);
    }
    assert forall e | e in b'.outbox :: EventBacked(b', e) by {
      assert forall e | e in b.outbox :: EventBacked(b, e);
    }
  }

  lemma EndDepositHolds(b: Billing, k: DepositKey, status: DepositStatus, balance: Balance, ledger: seq<Entry>)
    requires HoldsMatchDeposits(b) && k in b.deposits && b.deposits[k].status == HELD && status != HELD
    requires k.company in b.accounts && balance.held == b.accounts[k.company].held - b.deposits[k].amount
    ensures HoldsMatchDeposits(Post(b, k, balance, status, ledger))
  {
    hide Sum, HeldSum;
    var b' := Post(b, k, balance, status, ledger);
    forall c: CompanyId
      ensures BalanceOf(b', c).held == HeldSum(b'.deposits, c)
    {
      assert BalanceOf(b, c).held == HeldSum(b.deposits, c);
      HeldSumUpdate(b.deposits, k, b.deposits[k].(status := status), c);
    }
  }

  lemma EndDepositKeeps(b: Billing, k: DepositKey, release: int, capture: int, status: DepositStatus, balance: Balance, ledger: seq<Entry>)
    requires BillingInv(b) && k in b.deposits && b.deposits[k].status == HELD
    requires StatusFits(status, b.deposits[k].amount, release, capture)
    requires k.company in b.accounts
    requires balance.available == b.accounts[k.company].available + release
    requires balance.held == b.accounts[k.company].held - b.deposits[k].amount
    requires Splits(b.ledger, ledger, k, release, capture)
    ensures BillingInv(Post(b, k, balance, status, ledger))
    ensures BillingAdvances(b, Post(b, k, balance, status, ledger))
  {
    hide Sum, HeldSum, Reading;
    var b' := Post(b, k, balance, status, ledger);
    assert DepositAudited(b, k);
    EndDepositHolds(b, k, status, balance, ledger);
    PapersKept(b, b');
    forall q: DepositKey
      ensures DepositAudited(b', q)
    {
      assert DepositAudited(b, q);
    }
    assert LedgerExplainsBalances(b') by {
      assert LedgerExplainsBalances(b);
    }
  }

  // One ending line, or a fee line followed by a release line.
  lemma OneLineSplits(b: Billing, k: DepositKey, e: Entry)
    requires BillingInv(b) && k in b.deposits && b.deposits[k].status == HELD
    requires e.key in EndingKeys(k) && e.amount > 0
    ensures Splits(b.ledger, Append(b.ledger, e), k,
                   if e.key.kind == BidDepositReleased then e.amount else 0,
                   if e.key.kind == BidDepositReleased then 0 else e.amount)
  {
    HeldHasNoEndingLine(b, k);
    SumAppend(b.ledger, e);
  }

  lemma TwoLinesSplit(b: Billing, k: DepositKey, fee: Entry, rest: Entry)
    requires BillingInv(b) && k in b.deposits && b.deposits[k].status == HELD
    requires fee.key in EndingKeys(k) && fee.key.kind == PlatformFeeCaptured && fee.amount > 0
    requires rest.key in EndingKeys(k) && rest.key.kind == BidDepositReleased && rest.amount > 0
    ensures Splits(b.ledger, Append(Append(b.ledger, fee), rest), k, rest.amount, fee.amount)
  {
    HeldHasNoEndingLine(b, k);
    hide BillingInv;
    SumAppend(b.ledger, fee);
    SumAppend(Append(b.ledger, fee), rest);
  }

  lemma CreateAccountKeeps(b: Billing, company: CompanyId)
    requires BillingInv(b) && CreateAccount(b, company).Ok?
    ensures BillingInv(CreateAccount(b, company).value)
    ensures company in CreateAccount(b, company).value.accounts
    ensures BillingAdvances(b, CreateAccount(b, company).value)
    ensures CreateAccount(b, company).value.deposits == b.deposits && SamePapers(b, CreateAccount(b, company).value)
  {
    var b' := CreateAccount(b, company).value;
    assert forall c: CompanyId :: BalanceOf(b', c) == BalanceOf(b, c);
    OtherRowsKept(b, b');
  }

  lemma CreditTopUpKeeps(b: Billing, company: CompanyId, amount: int, payment: PaymentId)
    requires MoneyInv(b) && ConfirmTopUp(b, company, amount, payment).Ok? && payment !in b.processed
    ensures MoneyInv(ConfirmTopUp(b, company, amount, payment).value)
    ensures BillingAdvances(b, ConfirmTopUp(b, company, amount, payment).value)
  {
    hide Sum, HeldSum;
    var b' := ConfirmTopUp(b, company, amount, payment).value;
    var line := Entry(TopUpKey(company, payment), amount);
    NoLineWithKey(TopUpLines(payment), b.ledger, line.key);
    NoLineNoMoney(b.ledger, payment, company);
    SumAppend(b.ledger, line);
    assert HoldsMatchDeposits(b') by {
      assert forall c: CompanyId :: BalanceOf(b', c).held == BalanceOf(b, c).held;
    }
    OtherRowsKept(b, b');
  }

  // Confirming a fresh payment raises the company's available balance by exactly the amount, and adds one line of it.
  lemma ConfirmTopUpCredits(b: Billing, company: CompanyId, amount: int, payment: PaymentId)
    requires MoneyInv(b) && payment !in b.processed
    ensures var r := ConfirmTopUp(b, company, amount, payment);
            && (r.Ok? <==> company in b.accounts && payment != NO_ID && amount > 0)
            && (r.Ok? ==>
                  var line := Entry(Key(company, ExternalPayment, PaymentRef(payment), TopUpConfirmed), amount);
                  && r.value == b.(processed := b.processed + {payment}, ledger := b.ledger + [line],
                                   accounts := b.accounts[company := Balance(b.accounts[company].available + amount,
                                                                             b.accounts[company].held)])
                  && Sum(ToppedUp(payment, company), r.value.ledger) == amount
                  && (forall p: PaymentId, c: CompanyId | p != payment ::
                        Sum(ToppedUp(p, c), r.value.ledger) == Sum(ToppedUp(p, c), b.ledger)))
  {
    hide Sum, HeldSum;
    var line := Entry(Key(company, ExternalPayment, PaymentRef(payment), TopUpConfirmed), amount);
    NoLineWithKey(TopUpLines(payment), b.ledger, line.key);
    NoLineNoMoney(b.ledger, payment, company);
    SumAppend(b.ledger, line);
  }

  lemma ConfirmTopUpKeeps(b: Billing, company: CompanyId, amount: int, payment: PaymentId)
    requires BillingInv(b) && ConfirmTopUp(b, company, amount, payment).Ok?
    requires payment !in b.topUps
    ensures BillingInv(ConfirmTopUp(b, company, amount, payment).value)
    ensures BillingAdvances(b, ConfirmTopUp(b, company, amount, payment).value)
  {
    if payment !in b.processed {
      CreditTopUpKeeps(b, company, amount, payment);
    }
  }

  // Payment identifiers of new top-ups have not been used before.
  lemma CreateTopUpKeeps(b: Billing, company: CompanyId, amount: int, payment: PaymentId)
    requires BillingInv(b) && CreateTopUp(b, company, amount, payment).Ok?
    requires payment != NO_ID && payment !in b.topUps && payment !in b.processed
    ensures var b' := CreateTopUp(b, company, amount, payment).value;
            && BillingInv(b') && BillingAdvances(b, b')
            && b'.deposits == b.deposits && b'.invoices == b.invoices && b'.payouts == b.payouts && b'.outbox == b.outbox
  {
    hide Sum, HeldSum;
    CreateAccountKeeps(b, company);
    var b1 := CreateAccount(b, company).value;
    var b' := CreateTopUp(b, company, amount, payment).value;
    assert forall c :: BalanceOf(b', c) == BalanceOf(b1, c);
    OtherRowsKept(b1, b');
  }

  lemma TopUpSucceeds(b: Billing, b1: Billing, payment: PaymentId)
    requires TopUpsCoupled(b) && payment in b.topUps && b.topUps[payment].status == TopUpPending && payment !in b.processed
    requires b1.topUps == b.topUps && b1.processed == b.processed + {payment} && b.accounts.Keys <= b1.accounts.Keys
    requires Sum(ToppedUp(payment, b.topUps[payment].company), b1.ledger) == b.topUps[payment].amount
    requires forall p: PaymentId, c: CompanyId | p != payment :: Sum(ToppedUp(p, c), b1.ledger) == Sum(ToppedUp(p, c), b.ledger)
    ensures TopUpsCoupled(b1.(topUps := b.topUps[payment := b.topUps[payment].(status := TopUpSucceeded)]))
  {
    hide Sum;
  }

  lemma ConfirmTopUpByProviderKeeps(b: Billing, payment: PaymentId, amount: int)
    requires BillingInv(b) && ConfirmTopUpByProvider(b, payment, amount).Ok?
    ensures BillingInv(ConfirmTopUpByProvider(b, payment, amount).value)
    ensures BillingAdvances(b, ConfirmTopUpByProvider(b, payment, amount).value)
  {
    hide Sum, HeldSum, MoneyInv, BillingAdvances, ConfirmTopUp;
    if b.topUps[payment].status == TopUpPending {
      var topUp := b.topUps[payment];
      CreditTopUpKeeps(b, topUp.company, amount, payment);
      ConfirmTopUpCredits(b, topUp.company, amount, payment);
      var b1 := ConfirmTopUp(b, topUp.company, amount, payment).value;
      TopUpSucceeds(b, b1, payment);
      MarkedTopUpKeeps(b1, payment, topUp.(status := TopUpSucceeded));
      hide TopUpsCoupled;
      BillingAdvancesTransitive(b, b1, ConfirmTopUpByProvider(b, payment, amount).value);
    } else {
      BillingAdvancesReflexive(b);
    }
  }

  // Neither money nor papers notice the status of a top-up.
  lemma MarkedTopUpKeeps(b: Billing, payment: PaymentId, row: TopUpRow)
    requires MoneyInv(b)
    ensures MoneyInv(b.(topUps := b.topUps[payment := row])) && BillingAdvances(b, b.(topUps := b.topUps[payment := row]))
  {
    hide Sum, HeldSum;
    var b' := b.(topUps := b.topUps[payment := row]);
    assert forall c :: BalanceOf(b', c) == BalanceOf(b, c);
    OtherRowsKept(b, b');
  }

  // Deposits, payouts and invoices are untouched by a change that only adds lines about other things.
  lemma OtherRowsKept(b: Billing, b': Billing)
    requires MoneyInv(b)
    requires b'.deposits == b.deposits && b'.payouts == b.payouts && b'.invoices == b.invoices && b'.outbox == b.outbox
    requires b.accounts.Keys <= b'.accounts.Keys
    requires forall m: Meter | Counts(m) && !m.TopUpLines? && !m.ToppedUp? :: Sum(m, b'.ledger) == Sum(m, b.ledger)
    ensures DepositsAudited(b') && PayoutsAudited(b') && InvoicesBacked(b')
  {
    hide Sum;
    PapersKept(b, b');
    forall k: DepositKey
      ensures DepositAudited(b', k)
    {
      assert DepositAudited(b, k);
    }
  }

  // The effect on every meter of setting a new deposit aside.
  function ReserveReading(m: Meter, k: DepositKey, amount: int): int {
    match m
    case Available(c) => if c == k.company then -amount else 0
    case OnHold(c) => if c == k.company then amount else 0
    case ReservedFor(a, c) => if DepositKey(a, c) == k then amount else 0
    case _ => 0
  }

  lemma NewDepositHolds(b: Billing, k: DepositKey, amount: nat, balance: Balance, ledger: seq<Entry>)
    requires HoldsMatchDeposits(b) && k !in b.deposits && k.company in b.accounts
    requires balance.held == b.accounts[k.company].held + amount
    ensures HoldsMatchDeposits(b.(deposits := b.deposits[k := DepositRow(amount, HELD)], accounts := b.accounts[k.company := balance], ledger := ledger))
  {
    hide Sum, HeldSum;
    var b' := b.(deposits := b.deposits[k := DepositRow(amount, HELD)], accounts := b.accounts[k.company := balance], ledger := ledger);
    forall c: CompanyId
      ensures BalanceOf(b', c).held == HeldSum(b'.deposits, c)
    {
      assert BalanceOf(b, c).held == HeldSum(b.deposits, c);
      HeldSumUpdate(b.deposits, k, b'.deposits[k], c);
    }
  }

  lemma NewDepositKeeps(b: Billing, k: DepositKey, amount: nat, balance: Balance, ledger: seq<Entry>)
    requires BillingInv(b) && k !in b.deposits && k.company in b.accounts && amount > 0
    requires k.auction != NO_ID && k.company != NO_ID
    requires balance.available == b.accounts[k.company].available - amount
    requires balance.held == b.accounts[k.company].held + amount
    requires AllPositive(ledger)
    requires forall m: Meter :: Sum(m, ledger) == Sum(m, b.ledger) + ReserveReading(m, k, amount)
    ensures var b' := b.(deposits := b.deposits[k := DepositRow(amount, HELD)], accounts := b.accounts[k.company := balance], ledger := ledger);
            BillingInv(b') && BillingAdvances(b, b')
  {
    hide Sum, HeldSum, Reading;
    var b' := b.(deposits := b.deposits[k := DepositRow(amount, HELD)], accounts := b.accounts[k.company := balance], ledger := ledger);
    NewDepositHolds(b, k, amount, balance, ledger);
    PapersKept(b, b');
    forall q: DepositKey
      ensures DepositAudited(b', q)
    {
      assert DepositAudited(b, q);
    }
  }

  lemma NeverReserved(b: Billing, k: DepositKey)
    requires BillingInv(b) && k !in b.deposits
    ensures !Exists(b.ledger, ReserveKey(k))
  {
    hide Sum, HeldSum;
    assert DepositAudited(b, k);
    NoLineWithKey(ReservedFor(k.auction, k.company), b.ledger, ReserveKey(k));
  }

  lemma ReserveKeeps(b: Billing, company: CompanyId, auction: AuctionId, startPrice: int)
    requires BillingInv(b) && ReserveAuctionDeposit(b, company, auction, startPrice).Ok?
    ensures var b' := ReserveAuctionDeposit(b, company, auction, startPrice).value;
            var k := DepositKey(auction, company);
            && BillingInv(b') && BillingAdvances(b, b') && SamePapers(b, b')
            && b'.deposits == b.deposits[k := if k in b.deposits then b.deposits[k] else DepositRow(DepositFromStartPrice(startPrice), HELD)]
            && b'.deposits[k].status == HELD
  {
    hide Sum, HeldSum, Exists, DepositFromStartPrice;
    var k := DepositKey(auction, company);
    if k !in b.deposits {
      hide BillingInv, BillingAdvances;
      var amount := DepositFromStartPrice(startPrice);
      var line := Entry(ReserveKey(k), amount);
      NeverReserved(b, k);
      SumAppend(b.ledger, line);
      NewDepositKeeps(b, k, amount, b.accounts[company].Reserve(amount).value, Append(b.ledger, line));
    }
  }

  // Capturing a winner's deposit succeeds exactly while it is HELD, and is repeated harmlessly once it is CAPTURED.
  lemma CaptureOutcome(b: Billing, company: CompanyId, auction: AuctionId)
    requires BillingInv(b) && DepositKey(auction, company) in b.deposits
    ensures var r := CaptureAuctionDeposit(b, company, auction);
            var k := DepositKey(auction, company);
            && (r.Ok? <==> b.deposits[k].status in {HELD, CAPTURED})
            && (r.Err? ==> r.error == ErrDepositNotHeld)
            && (b.deposits[k].status == CAPTURED ==> r == Ok(b))
            && (r.Ok? ==>
                  && BillingInv(r.value) && BillingAdvances(b, r.value) && SamePapers(b, r.value)
                  && r.value.deposits == b.deposits[k := b.deposits[k].(status := CAPTURED)]
                  && (b.deposits[k].status == HELD ==>
                        r.value.accounts == b.accounts[company := b.accounts[company].(held := b.accounts[company].held - b.deposits[k].amount)]))
  {
    var k := DepositKey(auction, company);
    assert DepositAudited(b, k);
    if b.deposits[k].status == HELD {
      hide Sum, HeldSum;
      var amount := b.deposits[k].amount;
      var line := Entry(CaptureKey(k), amount);
      HeldIsCovered(b, k);
      HeldHasNoEndingLine(b, k);
      OneLineSplits(b, k, line);
      EndDepositKeeps(b, k, 0, amount, CAPTURED, b.accounts[company].Capture(amount).value, Append(b.ledger, line));
    }
  }

  // The same for giving it back.
  lemma ReleaseOutcome(b: Billing, company: CompanyId, auction: AuctionId)
    requires BillingInv(b) && DepositKey(auction, company) in b.deposits
    ensures var r := ReleaseAuctionDeposit(b, company, auction);
            var k := DepositKey(auction, company);
            && (r.Ok? <==> b.deposits[k].status in {HELD, RELEASED})
            && (r.Err? ==> r.error == ErrDepositNotHeld)
            && (b.deposits[k].status == RELEASED ==> r == Ok(b))
            && (r.Ok? ==>
                  && BillingInv(r.value) && BillingAdvances(b, r.value) && SamePapers(b, r.value)
                  && r.value.deposits == b.deposits[k := b.deposits[k].(status := RELEASED)]
                  && (b.deposits[k].status == HELD ==>
                        && r.value.accounts.Keys == b.accounts.Keys
                        && r.value.accounts[company].Total() == b.accounts[company].Total()
                        && r.value.accounts[company].held == b.accounts[company].held - b.deposits[k].amount))
  {
    var k := DepositKey(auction, company);
    assert DepositAudited(b, k);
    if b.deposits[k].status == HELD {
      hide Sum, HeldSum;
      var amount := b.deposits[k].amount;
      var line := Entry(ReleaseKey(k), amount);
      HeldIsCovered(b, k);
      HeldHasNoEndingLine(b, k);
      OneLineSplits(b, k, line);
      EndDepositKeeps(b, k, amount, 0, RELEASED, b.accounts[company].Release(amount).value, Append(b.ledger, line));
    }
  }

  // ---------- releasing everyone but the candidates ----------

  // What the release loop makes of a deposit once it has visited the given companies.
  function AfterRelease(k: DepositKey, row: DepositRow, auction: AuctionId, candidates: seq<CompanyId>, visited: seq<CompanyId>): DepositRow {
    if k.auction == auction && k.company in visited && k.company !in candidates && row.status == HELD
    then row.(status := RELEASED)
    else row
  }

  lemma AfterOneMore(k: DepositKey, row: DepositRow, auction: AuctionId, candidates: seq<CompanyId>, companies: seq<CompanyId>)
    requires companies != []
    ensures var last := |companies| - 1;
            AfterRelease(k, AfterRelease(k, row, auction, candidates, companies[..last]), auction, candidates, [companies[last]])
            == AfterRelease(k, row, auction, candidates, companies)
  {
    assert companies == companies[..|companies| - 1] + [companies[|companies| - 1]];
  }

  lemma ReleaseTurnOutcome(b: Billing, auction: AuctionId, candidates: seq<CompanyId>, c: CompanyId)
    requires BillingInv(b)
    ensures var r := ReleaseUnlessCandidate(b, auction, candidates, c);
            && r.Ok? && BillingInv(r.value) && BillingAdvances(b, r.value) && SamePapers(b, r.value)
            && r.value.deposits == map k | k in b.deposits :: AfterRelease(k, b.deposits[k], auction, candidates, [c])
  {
    hide Sum, HeldSum;
    var k := DepositKey(auction, c);
    if c !in candidates && k in b.deposits && b.deposits[k].status == HELD {
      HeldIsCovered(b, k);
      HeldHasNoEndingLine(b, k);
      ReleaseOutcome(b, c, auction);
      hide BillingInv, BillingAdvances;
    } else {
      assert b.deposits == map q | q in b.deposits :: AfterRelease(q, b.deposits[q], auction, candidates, [c]);
    }
  }

  lemma {:induction false} ReleaseLoopOutcome(b: Billing, auction: AuctionId, candidates: seq<CompanyId>, companies: seq<CompanyId>)
    requires BillingInv(b)
    ensures var r := ReleaseAllUnlessCandidate(b, auction, candidates, companies);
            && r.Ok? && BillingInv(r.value) && BillingAdvances(b, r.value) && SamePapers(b, r.value)
            && r.value.deposits == map k | k in b.deposits :: AfterRelease(k, b.deposits[k], auction, candidates, companies)
  {
    if companies == [] {
      assert b.deposits == map k | k in b.deposits :: AfterRelease(k, b.deposits[k], auction, candidates, companies);
      hide Sum, HeldSum, BillingInv;
    } else {
      hide Sum, HeldSum, BillingInv, BillingAdvances, ReleaseUnlessCandidate, AfterRelease;
      var last := |companies| - 1;
      var c := companies[last];
      ReleaseLoopOutcome(b, auction, candidates, companies[..last]);
      var b1 := ReleaseAllUnlessCandidate(b, auction, candidates, companies[..last]).value;
      ReleaseTurnOutcome(b1, auction, candidates, c);
      var b2 := ReleaseUnlessCandidate(b1, auction, candidates, c).value;
      BillingAdvancesTransitive(b, b1, b2);
      forall k | k in b.deposits
        ensures k in b2.deposits && b2.deposits[k] == AfterRelease(k, b.deposits[k], auction, candidates, companies)
      {
        AfterOneMore(k, b.deposits[k], auction, candidates, companies);
      }
      assert b2.deposits == map k | k in b.deposits :: AfterRelease(k, b.deposits[k], auction, candidates, companies);
    }
  }

  // The release of an auction's losers cannot fail. It frees exactly the HELD deposits of that auction whose
  // company is not a candidate; candidates' deposits and other auctions' deposits are untouched.
  lemma ReleaseExceptOutcome(b: Billing, auction: AuctionId, candidates: seq<CompanyId>)
    requires BillingInv(b) && auction != NO_ID && NO_ID !in candidates
    ensures var r := ReleaseAuctionDepositsExceptCandidates(b, auction, candidates);
            && r.Ok? && BillingInv(r.value) && BillingAdvances(b, r.value) && SamePapers(b, r.value)
            && r.value.deposits.Keys == b.deposits.Keys
            && forall k | k in b.deposits ::
                 r.value.deposits[k] ==
                 if k.auction == auction && k.company !in candidates && b.deposits[k].status == HELD
                 then b.deposits[k].(status := RELEASED)
                 else b.deposits[k]
  {
    ReleaseLoopOutcome(b, auction, candidates, ListByAuction(b.deposits, auction));
    forall k | k in b.deposits && k.auction == auction
      ensures k.company in ListByAuction(b.deposits, auction)
    {
      assert DepositKey(auction, k.company) == k;
    }
  }

  // Nothing left to release: the loop changes nothing at all.
  lemma {:induction false} ReleaseLoopIdle(b: Billing, auction: AuctionId, candidates: seq<CompanyId>, companies: seq<CompanyId>)
    requires forall k | k in b.deposits && k.auction == auction && k.company !in candidates :: b.deposits[k].status != HELD
    ensures ReleaseAllUnlessCandidate(b, auction, candidates, companies) == Ok(b)
  {
    if companies != [] {
      ReleaseLoopIdle(b, auction, candidates, companies[..|companies| - 1]);
    }
  }
}
