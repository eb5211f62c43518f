/** The winner selection: a ranked candidate list and a cursor that only moves forward. */
module SelectionDomain {
  import opened Common

  datatype SelectionStatus = Active | ConfirmedPendingPayment | Finalized | Exhausted

  datatype SelectionRow = SelectionRow(
    auction: AuctionId,
    candidates: seq<CompanyId>,
    currentIndex: int,
    status: SelectionStatus,
    finalPrice: int,
    wonAt: Time,
    supplier: CompanyId,
    productNamed: bool,
    deal: DealId
  ) {
    function CurrentCandidate(): Option<CompanyId> {
      if status == Exhausted then None
      else if currentIndex < 0 || currentIndex >= |candidates| then None
      else if candidates[currentIndex] == NO_ID then None
      else Some(candidates[currentIndex])
    }

    // Whether there was a next candidate, and the selection afterwards.
    function Advance(): (bool, SelectionRow) {
      if status != Active then (false, this)
      else if currentIndex + 1 >= |candidates| then (false, this.(status := Exhausted, deal := NO_ID))
      else (true, this.(currentIndex := currentIndex + 1, deal := NO_ID))
    }

    // The error path may already have taken the deal id over; the caller's transaction rolls that back.
    function MarkCurrentConfirmed(id: DealId): Result<SelectionRow> {
      if id == NO_ID then Err(ErrDealIDRequired)
      else if status != Active then Err(ErrWinnerSelectionNotActive)
      else if deal != NO_ID && deal != id then Err(ErrStaleWinnerSelection)
      else if CurrentCandidate().None? then Err(ErrNoAvailableWinnerCandidate)
      else Ok(this.(status := ConfirmedPendingPayment, deal := id))
    }

    function ReopenAfterPaymentTimeout(id: DealId): Result<SelectionRow> {
      if id == NO_ID then Err(ErrDealIDRequired)
      else if status != ConfirmedPendingPayment then Err(ErrWinnerSelectionNotAwaitingPayment)
      else if deal != id then Err(ErrWinnerSelectionDealMismatch)
      else Ok(this.(status := Active, deal := NO_ID))
    }

    function MarkFinalized(id: DealId): Result<SelectionRow> {
      if id == NO_ID then Err(ErrDealIDRequired)
      else if status == Finalized then
        if deal == id then Ok(this) else Err(ErrWinnerSelectionDealMismatch)
      else if status != ConfirmedPendingPayment then Err(ErrWinnerSelectionNotAwaitingPayment)
      else if deal != id then Err(ErrWinnerSelectionDealMismatch)
      else if CurrentCandidate().None? then Err(ErrNoAvailableWinnerCandidate)
      else Ok(this.(status := Finalized))
    }

    function MarkExhausted(): SelectionRow {
      this.(status := Exhausted, deal := NO_ID)
    }
  }

  function NewWinnerSelection(auction: AuctionId, candidates: seq<CompanyId>, finalPrice: int, wonAt: Time,
                              supplier: CompanyId, productNamed: bool): SelectionRow
  {
    SelectionRow(auction, candidates, 0, Active, finalPrice, wonAt, supplier, productNamed, NO_ID)
  }

  class WinnerSelection {
    const base: SelectionRow // candidates, price, supplier and snapshot; the fields below supersede the rest
    var currentIndex: int
    var status: SelectionStatus
    var deal: DealId

    constructor (row: SelectionRow)
      ensures Value() == row
    {
      base, currentIndex, status, deal := row, row.currentIndex, row.status, row.deal;
    }

    function Value(): SelectionRow
      reads this
    {
      base.(currentIndex := currentIndex, status := status, deal := deal)
    }

    method CurrentCandidate() returns (candidate: Option<CompanyId>)
      ensures candidate == Value().CurrentCandidate()
    {
      if status == Exhausted { return None; }
      if currentIndex < 0 || currentIndex >= |base.candidates| { return None; }
      if base.candidates[currentIndex] == NO_ID { return None; }
      return Some(base.candidates[currentIndex]);
    }

    method Advance() returns (ok: bool)
      modifies this
      ensures (ok, Value()) == old(Value()).Advance()
    {
      if status != Active { return false; }
      var next := currentIndex + 1;
      if next >= |base.candidates| {
        status := Exhausted;
        deal := NO_ID;
        return false;
      }
      currentIndex := next;
      deal := NO_ID;
      return true;
    }

    method MarkCurrentConfirmed(id: DealId) returns (err: Option<Error>)
      modifies this
      ensures err == old(Value()).MarkCurrentConfirmed(id).Failure()
      ensures err.None? ==> Value() == old(Value()).MarkCurrentConfirmed(id).value
    {
      if id == NO_ID { return Some(ErrDealIDRequired); }
      if status != Active { return Some(ErrWinnerSelectionNotActive); }
      if deal == NO_ID {
        deal := id;
      } else if deal != id {
        return Some(ErrStaleWinnerSelection);
      }
      var candidate := CurrentCandidate();
      if candidate.None? { return Some(ErrNoAvailableWinnerCandidate); }
      status := ConfirmedPendingPayment;
      return None;
    }

    method ReopenAfterPaymentTimeout(id: DealId) returns (err: Option<Error>)
      modifies this
      ensures err == old(Value()).ReopenAfterPaymentTimeout(id).Failure()
      ensures Value() == (if err.None? then old(Value()).ReopenAfterPaymentTimeout(id).value else old(Value()))
    {
      if id == NO_ID { return Some(ErrDealIDRequired); }
      if status != ConfirmedPendingPayment { return Some(ErrWinnerSelectionNotAwaitingPayment); }
      if deal != id { return Some(ErrWinnerSelectionDealMismatch); }
      status := Active;
      deal := NO_ID;
      return None;
    }

    method MarkFinalized(id: DealId) returns (err: Option<Error>)
      modifies this
      ensures err == old(Value()).MarkFinalized(id).Failure()
      ensures Value() == (if err.None? then old(Value()).MarkFinalized(id).value else old(Value()))
    {
      if id == NO_ID { return Some(ErrDealIDRequired); }
      if status == Finalized {
        if deal == id { return None; }
        return Some(ErrWinnerSelectionDealMismatch);
      }
      if status != ConfirmedPendingPayment { return Some(ErrWinnerSelectionNotAwaitingPayment); }
      if deal != id { return Some(ErrWinnerSelectionDealMismatch); }
      var candidate := CurrentCandidate();
      if candidate.None? { return Some(ErrNoAvailableWinnerCandidate); }
      status := Finalized;
      return None;
    }

    method MarkExhausted()
      modifies this
      ensures Value() == old(Value()).MarkExhausted()
    {
      status := Exhausted;
      deal := NO_ID;
    }

    method AssignDeal(id: DealId)
      modifies this
      ensures Value() == old(Value()).(deal := id)
    {
      deal := id;
    }
  }
}
