/** The append-only money ledger and the sums ("meters") read off it. */
module Ledger {
  import opened Common
  import opened Money

  datatype EntryKind =
    | TopUpConfirmed
    | BidDepositReserved
    | BidDepositReleased
    | BidDepositCaptured
    | PlatformFeeCaptured
    | PlatformFeeDue
    | SellerPayoutCredited

  // The reference_type column.
  datatype ReferenceType =
    | ExternalPayment
    | AuctionDepositReserve
    | AuctionDepositCapture
    | AuctionDepositRelease
    | WinnerDepositAfterInvoice
    | FeeFromDeposit
    | FeeFromDepositZero
    | FeeDepositRemainder
    | FeeDue
    | SellerPayoutReference

  // The reference_id column; Money.ReferenceTextInjective justifies the structured form.
  datatype Reference =
    | PaymentRef(payment: PaymentId)
    | DepositRef(auction: AuctionId, company: CompanyId, suffix: Suffix)
    | PayoutRef(deal: DealId)

  // The unique index of the ledger table.
  datatype Key = Key(company: CompanyId, referenceType: ReferenceType, reference: Reference, kind: EntryKind)

  datatype Entry = Entry(key: Key, amount: int)

  predicate Exists(ledger: seq<Entry>, key: Key) {
    exists i :: 0 <= i < |ledger| && ledger[i].key == key
  }

  // Appending a row whose key is already present is silently ignored.
  function Append(ledger: seq<Entry>, e: Entry): seq<Entry> {
    if Exists(ledger, e.key) then ledger else ledger + [e]
  }

  // A meter is one thing the ledger can be asked to add up.
  datatype Meter =
    | Available(company: CompanyId)                       // signed effect on the spendable balance
    | OnHold(company: CompanyId)                          // signed effect on the held balance
    | ReservedFor(auction: AuctionId, company: CompanyId) // amounts set aside for one deposit
    | ReleasedFor(auction: AuctionId, company: CompanyId) // amounts given back from one deposit
    | CapturedFor(auction: AuctionId, company: CompanyId) // amounts kept from one deposit
    | CreditedFor(deal: DealId)                           // amounts credited for one payout
    | CreditLines(deal: DealId)                           // how many lines credit one payout
    | CreditsTo(deal: DealId, seller: CompanyId)          // how many of those carry the seller's exact key
    | TopUpLines(payment: PaymentId)                      // how many lines confirm one payment
    | ToppedUp(payment: PaymentId, company: CompanyId)    // amounts credited to one company for one payment

  predicate About(e: Entry, auction: AuctionId, company: CompanyId) {
    e.key.reference.DepositRef? && e.key.reference.auction == auction && e.key.reference.company == company
  }

  // The key of the line that credits a payout to its seller.
  function CreditTo(deal: DealId, seller: CompanyId): Key {
    Key(seller, SellerPayoutReference, PayoutRef(deal), SellerPayoutCredited)
  }

  // What one line adds to a meter. A fee that is merely due moves no money.
  function Reading(m: Meter, e: Entry): int {
    match m
    case Available(c) =>
      if e.key.company != c then 0
      else match e.key.kind {
        case TopUpConfirmed => e.amount
        case BidDepositReleased => e.amount
        case SellerPayoutCredited => e.amount
        case BidDepositReserved => -e.amount
        case _ => 0
      }
    case OnHold(c) =>
      if e.key.company != c then 0
      else match e.key.kind {
        case BidDepositReserved => e.amount
        case BidDepositReleased => -e.amount
        case BidDepositCaptured => -e.amount
        case PlatformFeeCaptured => -e.amount
        case _ => 0
      }
    case ReservedFor(a, c) => if About(e, a, c) && e.key.kind == BidDepositReserved then e.amount else 0
    case ReleasedFor(a, c) => if About(e, a, c) && e.key.kind == BidDepositReleased then e.amount else 0
    case CapturedFor(a, c) =>
      if About(e, a, c) && e.key.kind in {BidDepositCaptured, PlatformFeeCaptured} then e.amount else 0
    case CreditedFor(d) => if e.key.reference == PayoutRef(d) then e.amount else 0
    case CreditLines(d) => if e.key.reference == PayoutRef(d) then 1 else 0
    case CreditsTo(d, c) => if e.key == CreditTo(d, c) then 1 else 0
    case TopUpLines(p) => if e.key.reference == PaymentRef(p) then 1 else 0
    case ToppedUp(p, c) => if e.key.reference == PaymentRef(p) && e.key.company == c then e.amount else 0
  }

  function Sum(m: Meter, ledger: seq<Entry>): int {
    if ledger == [] then 0
    else Sum(m, ledger[..|ledger| - 1]) + Reading(m, ledger[|ledger| - 1])
  }

  // Appending a line with a new key moves every meter by that line's reading, and nothing else.
  lemma SumAppend(ledger: seq<Entry>, e: Entry)
    requires !Exists(ledger, e.key)
    ensures Append(ledger, e) == ledger + [e]
    ensures forall m :: Sum(m, Append(ledger, e)) == Sum(m, ledger) + Reading(m, e)
    ensures forall k :: Exists(Append(ledger, e), k) <==> Exists(ledger, k) || k == e.key
  {
    var l := ledger + [e];
    assert l[..|ledger|] == ledger;
    forall k
      ensures Exists(l, k) <==> Exists(ledger, k) || k == e.key
    {
      if Exists(ledger, k) {
        var i :| 0 <= i < |ledger| && ledger[i].key == k;
        assert l[i].key == k;
      } else if k == e.key {
        assert l[|ledger|].key == k;
      }
    }
  }

  predicate AllPositive(ledger: seq<Entry>) {
    forall e | e in ledger :: e.amount > 0
  }

  // The meters that only ever count up.
  predicate Counts(m: Meter) {
    !m.Available? && !m.OnHold?
  }

  // A meter that only counts up and reads zero has seen no line it reacts to.
  lemma {:induction false} ZeroMeansNoLine(m: Meter, ledger: seq<Entry>)
    requires Counts(m) && AllPositive(ledger)
    ensures Sum(m, ledger) >= 0
    ensures Sum(m, ledger) == 0 ==> forall i :: 0 <= i < |ledger| ==> Reading(m, ledger[i]) == 0
  {
    if ledger != [] {
      var rest := ledger[..|ledger| - 1];
      ZeroMeansNoLine(m, rest);
      if Sum(m, ledger) == 0 {
        forall i | 0 <= i < |ledger|
          ensures Reading(m, ledger[i]) == 0
        {
          if i < |rest| {
            assert rest[i] == ledger[i];
          }
        }
      }
    }
  }

  // In particular no line with a key it reacts to.
  lemma NoLineWithKey(m: Meter, ledger: seq<Entry>, key: Key)
    requires Counts(m) && AllPositive(ledger) && Sum(m, ledger) == 0
    requires forall amount | amount > 0 :: Reading(m, Entry(key, amount)) != 0
    ensures !Exists(ledger, key)
  {
    ZeroMeansNoLine(m, ledger);
    forall i | 0 <= i < |ledger|
      ensures ledger[i].key != key
    {
      assert Reading(m, ledger[i]) == 0;
      assert ledger[i] == Entry(ledger[i].key, ledger[i].amount);
    }
  }

  // A meter that counts up and does not read zero has seen a line.
  lemma {:induction false} NonzeroMeansLine(m: Meter, ledger: seq<Entry>)
    requires Sum(m, ledger) != 0
    ensures exists i :: 0 <= i < |ledger| && Reading(m, ledger[i]) != 0
  {
    var last := |ledger| - 1;
    if Reading(m, ledger[last]) == 0 {
      NonzeroMeansLine(m, ledger[..last]);
      var i :| 0 <= i < last && Reading(m, ledger[..last][i]) != 0;
      assert ledger[..last][i] == ledger[i];
    }
  }

  // A payment without a line has credited nothing to anyone.
  lemma {:induction false} NoLineNoMoney(ledger: seq<Entry>, p: PaymentId, company: CompanyId)
    ensures Sum(TopUpLines(p), ledger) >= 0
    ensures Sum(TopUpLines(p), ledger) == 0 ==> Sum(ToppedUp(p, company), ledger) == 0
  {
    if ledger != [] {
      NoLineNoMoney(ledger[..|ledger| - 1], p, company);
    }
  }

  // ---------- money in and out of one company's account ----------

  function MoneyIn(company: CompanyId, ledger: seq<Entry>): int {
    if ledger == [] then 0
    else
      var e := ledger[|ledger| - 1];
      MoneyIn(company, ledger[..|ledger| - 1])
      + if e.key.company == company && e.key.kind in {TopUpConfirmed, SellerPayoutCredited} then e.amount else 0
  }

  function MoneyOut(company: CompanyId, ledger: seq<Entry>): int {
    if ledger == [] then 0
    else
      var e := ledger[|ledger| - 1];
      MoneyOut(company, ledger[..|ledger| - 1])
      + if e.key.company == company && e.key.kind in {BidDepositCaptured, PlatformFeeCaptured} then e.amount else 0
  }

  // Setting deposits aside and giving them back only moves money between the two balances.
  lemma {:induction false} InMinusOut(company: CompanyId, ledger: seq<Entry>)
    ensures Sum(Available(company), ledger) + Sum(OnHold(company), ledger) == MoneyIn(company, ledger) - MoneyOut(company, ledger)
  {
    if ledger != [] {
      InMinusOut(company, ledger[..|ledger| - 1]);
    }
  }
}
