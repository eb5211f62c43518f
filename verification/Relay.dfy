/** The outbox relay: which messages it dispatches, publishes, retries and gives up on, whatever fails around it. */
module Relay {
  import opened Common

  type MessageId = nat
  type EventType = nat
  type HandlerId = nat

  const MAX_ATTEMPTS: nat := 5
  const LOCK_TIME: Time := 1 * MINUTE

  // ---------- the outbox table ----------

  datatype Row = Row(
    eventType: EventType,
    attempts: nat,
    publishedAt: Option<Time>,
    failedAt: Option<Time>,
    lockedAt: Option<Time>
  )

  type Rows = map<MessageId, Row>

  predicate Eligible(row: Row, now: Time) {
    row.publishedAt.None? && row.failedAt.None? && (row.lockedAt.None? || row.lockedAt.value < now - LOCK_TIME)
  }

  // Listing locks its batch in the database before it reads the rows back: a failing statement locks nothing, failing
  // to read the rows leaves the whole batch locked.
  datatype ListingFault = NoFault | StatementFails | RowsFail

  // What goes wrong during one round: everything the relay calls can fail.
  datatype Faults = Faults(
    listing: ListingFault,                  // reading the batch
    recording: set<MessageId>,              // recording the failure of these messages
    marking: set<MessageId>,                // marking these messages published
    garbled: set<MessageId>,                // payloads that do not decode
    handling: set<(MessageId, HandlerId)>   // subscribers that return an error for a message
  )

  datatype RelayError = ListingFailed | MissingDecoder(id: MessageId) | DecodingFailed(id: MessageId)
                      | HandlerFailed(id: MessageId) | RecordingFailed(id: MessageId) | MarkingFailed(id: MessageId)

  // ---------- the bus ----------

  // The subscribers of one event type, in order of subscription.
  function Subscribers(handlers: map<EventType, seq<HandlerId>>, t: EventType): seq<HandlerId> {
    if t in handlers then handlers[t] else []
  }

  predicate AllHandle(handlers: map<EventType, seq<HandlerId>>, t: EventType, id: MessageId, faults: Faults) {
    forall h | h in Subscribers(handlers, t) :: (id, h) !in faults.handling
  }

  class Bus {
    var handlers: map<EventType, seq<HandlerId>>

    constructor ()
      ensures handlers == map[]
    {
      handlers := map[];
    }

    method Subscribe(t: EventType, h: HandlerId)
      modifies this
      ensures Subscribers(handlers, t) == old(Subscribers(handlers, t)) + [h]
      ensures forall q | q != t :: Subscribers(handlers, q) == old(Subscribers(handlers, q))
    {
      handlers := handlers[t := Subscribers(handlers, t) + [h]];
    }

    // Calls every subscriber, also after one has failed; succeeds only if all of them do.
    method Publish(t: EventType, id: MessageId, faults: Faults) returns (ok: bool, called: seq<HandlerId>)
      ensures called == Subscribers(handlers, t)
      ensures ok <==> AllHandle(handlers, t, id, faults)
    {
      var subscribers := Subscribers(handlers, t);
      var errs: nat := 0;
      called := [];
      for i := 0 to |subscribers|
        invariant called == subscribers[..i]
        invariant errs == 0 <==> forall h | h in subscribers[..i] :: (id, h) !in faults.handling
      {
        called := called + [subscribers[i]];
        if (id, subscribers[i]) in faults.handling {
          errs := errs + 1;
        }
      }
      ok := errs == 0;
    }
  }

  // ---------- one round, as a function ----------

  // What dispatching one message comes to: None, or the error that is recorded.
  function Dispatch(decoders: set<EventType>, handlers: map<EventType, seq<HandlerId>>, t: EventType, id: MessageId, faults: Faults): Option<RelayError>
  {
    if t !in decoders then Some(MissingDecoder(id))
    else if id in faults.garbled then Some(DecodingFailed(id))
    else if !AllHandle(handlers, t, id, faults) then Some(HandlerFailed(id))
    else None
  }

  // A message whose failure was recorded: one more attempt, and given up at the last one.
  function Recorded(row: Row, now: Time): Row {
    row.(attempts := row.attempts + 1, failedAt := if row.attempts + 1 >= MAX_ATTEMPTS then Some(now) else None)
  }

  // The first `limit` eligible messages in creation order.
  function Batch(rows: Rows, order: seq<MessageId>, limit: nat, now: Time): (batch: seq<MessageId>)
    ensures |batch| <= limit
    ensures forall i, j :: 0 <= i < j < |batch| ==> batch[i] != batch[j]
    ensures forall id | id in batch :: id in order && id in rows && Eligible(rows[id], now)
    ensures |batch| < limit ==> forall id | id in order && id in rows && Eligible(rows[id], now) :: id in batch
  {
    if order == [] then []
    else
      var last := |order| - 1;
      var earlier := Batch(rows, order[..last], limit, now);
      var id := order[last];
      if |earlier| < limit && id in rows && Eligible(rows[id], now) && id !in earlier then earlier + [id] else earlier
  }

  function Locked(rows: Rows, batch: seq<MessageId>, now: Time): Rows {
    map id | id in rows :: if id in batch then rows[id].(lockedAt := Some(now)) else rows[id]
  }

  // How far the loop over the batch has come.
  datatype Progress = Progress(rows: Rows, published: seq<MessageId>, firstErr: Option<RelayError>, aborted: Option<RelayError>)

  function Process(rows: Rows, batch: seq<MessageId>, decoders: set<EventType>, handlers: map<EventType, seq<HandlerId>>,
                   now: Time, faults: Faults): (p: Progress)
    requires forall id | id in batch :: id in rows
    ensures p.rows.Keys == rows.Keys
  {
    if batch == [] then Progress(rows, [], None, None)
    else
      var last := |batch| - 1;
      var p := Process(rows, batch[..last], decoders, handlers, now, faults);
      var id := batch[last];
      assert id in p.rows.Keys;
      if p.aborted.Some? then p
      else
        var err := Dispatch(decoders, handlers, p.rows[id].eventType, id, faults);
        if err.None? then p.(published := p.published + [id])
        else if id in faults.recording then p.(aborted := Some(RecordingFailed(id)))
        else p.(rows := p.rows[id := Recorded(p.rows[id], now)], firstErr := if p.firstErr.None? then err else p.firstErr)
  }

  // Marking stops at the first message that cannot be marked.
  function Marked(rows: Rows, ids: seq<MessageId>, now: Time, faults: Faults): (r: (Rows, Option<RelayError>))
    requires forall id | id in ids :: id in rows
    ensures r.0.Keys == rows.Keys
  {
    if ids == [] then (rows, None)
    else
      var last := |ids| - 1;
      var (before, err) := Marked(rows, ids[..last], now, faults);
      var id := ids[last];
      assert id in before.Keys;
      if err.Some? then (before, err)
      else if id in faults.marking then (before, Some(MarkingFailed(id)))
      else (before[id := before[id].(publishedAt := Some(now))], None)
  }

  lemma {:induction false} PublishedFromBatch(rows: Rows, batch: seq<MessageId>, decoders: set<EventType>,
                                               handlers: map<EventType, seq<HandlerId>>, now: Time, faults: Faults)
    requires forall id | id in batch :: id in rows
    ensures forall id | id in Process(rows, batch, decoders, handlers, now, faults).published :: id in batch && id in rows
  {
    if batch != [] {
      PublishedFromBatch(rows, batch[..|batch| - 1], decoders, handlers, now, faults);
    }
  }

  // The table and the returned error after one round on the given batch.
  function Round(rows: Rows, batch: seq<MessageId>, decoders: set<EventType>, handlers: map<EventType, seq<HandlerId>>,
                 now: Time, faults: Faults): (Rows, Option<RelayError>)
    requires forall id | id in batch :: id in rows
  {
    if faults.listing == StatementFails then (rows, Some(ListingFailed))
    else if faults.listing == RowsFail then (Locked(rows, batch, now), Some(ListingFailed))
    else
      var p := Process(Locked(rows, batch, now), batch, decoders, handlers, now, faults);
      if p.aborted.Some? then (p.rows, p.aborted)
      else
        PublishedFromBatch(Locked(rows, batch, now), batch, decoders, handlers, now, faults);
        assert forall id | id in p.published :: id in p.rows.Keys;
        var (after, err) := Marked(p.rows, p.published, now, faults);
        (after, if err.Some? then err else p.firstErr)
  }

  // ---------- the repository ----------

  class Repository {
    var rows: Rows
    var order: seq<MessageId> // by creation

    constructor ()
      ensures rows == map[] && order == []
    {
      rows, order := map[], [];
    }

    method Add(id: MessageId, t: EventType)
      requires id !in rows
      modifies this
      ensures rows == old(rows)[id := Row(t, 0, None, None, None)] && order == old(order) + [id]
    {
      rows := rows[id := Row(t, 0, None, None, None)];
      order := order + [id];
    }

    // Picks and locks a batch; its rows are handed out as they were before locking.
    method ListUnpublished(limit: nat, now: Time, faults: Faults) returns (err: Option<RelayError>, batch: seq<MessageId>)
      modifies this`rows
      ensures err == if faults.listing == NoFault then None else Some(ListingFailed)
      ensures err.None? ==> batch == Batch(old(rows), order, limit, now)
      ensures rows == if faults.listing == StatementFails then old(rows)
                      else Locked(old(rows), Batch(old(rows), order, limit, now), now)
    {
      batch := [];
      if faults.listing == StatementFails { return Some(ListingFailed), []; }
      for i := 0 to |order|
        invariant batch == Batch(rows, order[..i], limit, now)
        invariant rows == old(rows)
      {
        assert order[..i + 1][..i] == order[..i];
        var id := order[i];
        if |batch| < limit && id in rows && Eligible(rows[id], now) && id !in batch {
          batch := batch + [id];
        }
      }
      assert order[..|order|] == order;
      rows := Locked(rows, batch, now);
      if faults.listing == RowsFail { return Some(ListingFailed), []; }
      return None, batch;
    }

    method MarkPublished(ids: seq<MessageId>, now: Time, faults: Faults) returns (err: Option<RelayError>)
      requires forall id | id in ids :: id in rows
      modifies this`rows
      ensures (rows, err) == Marked(old(rows), ids, now, faults)
    {
      for i := 0 to |ids|
        invariant (rows, None) == Marked(old(rows), ids[..i], now, faults)
        invariant rows.Keys == old(rows).Keys
      {
        assert ids[..i + 1][..i] == ids[..i];
        assert ids[i] in rows.Keys;
        if ids[i] in faults.marking {
          MarkingStops(old(rows), ids, i + 1, now, faults);
          return Some(MarkingFailed(ids[i]));
        }
        rows := rows[ids[i] := rows[ids[i]].(publishedAt := Some(now))];
      }
      assert ids[..|ids|] == ids;
      return None;
    }

    method RecordFailure(id: MessageId, attempts: nat, failedAt: Option<Time>, faults: Faults) returns (err: Option<RelayError>)
      requires id in rows
      modifies this`rows
      ensures id in faults.recording ==> err == Some(RecordingFailed(id)) && rows == old(rows)
      ensures id !in faults.recording ==>
                err == None && rows == old(rows)[id := old(rows)[id].(attempts := attempts, failedAt := failedAt)]
    {
      if id in faults.recording { return Some(RecordingFailed(id)); }
      rows := rows[id := rows[id].(attempts := attempts, failedAt := failedAt)];
      return None;
    }
  }

  lemma {:induction false} MarkingStops(rows: Rows, ids: seq<MessageId>, i: nat, now: Time, faults: Faults)
    requires i <= |ids| && (forall id | id in ids :: id in rows) && Marked(rows, ids[..i], now, faults).1.Some?
    ensures Marked(rows, ids, now, faults) == Marked(rows, ids[..i], now, faults)
  {
    if i == |ids| {
      assert ids[..i] == ids;
    } else {
      assert ids[..|ids| - 1][..i] == ids[..i];
      MarkingStops(rows, ids[..|ids| - 1], i, now, faults);
    }
  }

  lemma {:induction false} ProcessingStops(rows: Rows, batch: seq<MessageId>, i: nat, decoders: set<EventType>,
                                           handlers: map<EventType, seq<HandlerId>>, now: Time, faults: Faults)
    requires i <= |batch| && (forall id | id in batch :: id in rows)
    requires Process(rows, batch[..i], decoders, handlers, now, faults).aborted.Some?
    ensures Process(rows, batch, decoders, handlers, now, faults) == Process(rows, batch[..i], decoders, handlers, now, faults)
  {
    if i == |batch| {
      assert batch[..i] == batch;
    } else {
      assert batch[..|batch| - 1][..i] == batch[..i];
      ProcessingStops(rows, batch[..|batch| - 1], i, decoders, handlers, now, faults);
    }
  }

  lemma ProcessNothing(rows: Rows, decoders: set<EventType>, handlers: map<EventType, seq<HandlerId>>, now: Time, faults: Faults)
    ensures Process(rows, [], decoders, handlers, now, faults) == Progress(rows, [], None, None)
  {
  }

  lemma ProcessNext(rows: Rows, batch: seq<MessageId>, i: nat, decoders: set<EventType>,
                    handlers: map<EventType, seq<HandlerId>>, now: Time, faults: Faults)
    requires i < |batch| && (forall id | id in batch :: id in rows)
    requires Process(rows, batch[..i], decoders, handlers, now, faults).aborted.None?
    ensures var p, next, id := Process(rows, batch[..i], decoders, handlers, now, faults),
                               Process(rows, batch[..i + 1], decoders, handlers, now, faults), batch[i];
            && id in p.rows
            && var err := Dispatch(decoders, handlers, p.rows[id].eventType, id, faults);
               next == if err.None? then p.(published := p.published + [id])
                       else if id in faults.recording then p.(aborted := Some(RecordingFailed(id)))
                       else p.(rows := p.rows[id := Recorded(p.rows[id], now)], firstErr := if p.firstErr.None? then err else p.firstErr)
  {
    assert batch[..i + 1][..i] == batch[..i];
    assert batch[i] in Process(rows, batch[..i], decoders, handlers, now, faults).rows.Keys;
  }

  // ---------- the relay ----------

  class Relay {
    const repo: Repository
    const decoders: set<EventType>
    const maxAttempts: nat

    constructor (repo: Repository, decoders: set<EventType>)
      ensures this.repo == repo && this.decoders == decoders && maxAttempts == MAX_ATTEMPTS
    {
      this.repo, this.decoders, this.maxAttempts := repo, decoders, 5;
    }

    method RecordFailure(id: MessageId, listed: Row, now: Time, faults: Faults) returns (err: Option<RelayError>)
      requires id in repo.rows && maxAttempts == MAX_ATTEMPTS
      modifies repo`rows
      ensures id in faults.recording ==> err == Some(RecordingFailed(id)) && repo.rows == old(repo.rows)
      ensures id !in faults.recording && listed.attempts == old(repo.rows)[id].attempts && old(repo.rows)[id].failedAt.None? ==>
                err == None && repo.rows == old(repo.rows)[id := Recorded(old(repo.rows)[id], now)]
    {
      var attempts := listed.attempts + 1;
      var failedAt: Option<Time> := None;
      if attempts >= maxAttempts { failedAt := Some(now); }
      err := repo.RecordFailure(id, attempts, failedAt, faults);
    }

    // Decodes one message and hands it to the bus.
    method DispatchOne(bus: Bus, t: EventType, id: MessageId, faults: Faults) returns (failure: Option<RelayError>)
      ensures failure == Dispatch(decoders, bus.handlers, t, id, faults)
    {
      if t !in decoders { return Some(MissingDecoder(id)); }
      if id in faults.garbled { return Some(DecodingFailed(id)); }
      var ok, called := bus.Publish(t, id, faults);
      return if ok then None else Some(HandlerFailed(id));
    }

    // The loop over a batch, up to its end or to the first failure that cannot be recorded.
    method DispatchBatch(bus: Bus, batch: seq<MessageId>, now: Time, faults: Faults)
      returns (aborted: Option<RelayError>, published: seq<MessageId>, firstErr: Option<RelayError>)
      requires maxAttempts == MAX_ATTEMPTS
      requires forall i, j :: 0 <= i < j < |batch| ==> batch[i] != batch[j]
      requires forall id | id in batch :: id in repo.rows && repo.rows[id].failedAt.None?
      modifies repo`rows
      ensures Process(old(repo.rows), batch, decoders, bus.handlers, now, faults) == Progress(repo.rows, published, firstErr, aborted)
    {
      hide Dispatch, Recorded, Process;
      ProcessNothing(repo.rows, decoders, bus.handlers, now, faults);
      var listed := repo.rows;
      published, firstErr, aborted := [], None, None;
      assert batch[..0] == [];
      for i := 0 to |batch|
        invariant repo.rows.Keys == listed.Keys
        invariant Process(listed, batch[..i], decoders, bus.handlers, now, faults) == Progress(repo.rows, published, firstErr, None)
        invariant forall j | i <= j < |batch| :: batch[j] in listed && repo.rows[batch[j]] == listed[batch[j]]
      {
        ProcessNext(listed, batch, i, decoders, bus.handlers, now, faults);
        var id := batch[i];
        var failure := DispatchOne(bus, listed[id].eventType, id, faults);
        if failure.Some? {
          aborted := RecordFailure(id, listed[id], now, faults);
          if aborted.Some? {
            ProcessingStops(listed, batch, i + 1, decoders, bus.handlers, now, faults);
            return;
          }
          if firstErr.None? { firstErr := failure; }
          continue;
        }
        published := published + [id];
      }
      assert batch[..|batch|] == batch;
      return None, published, firstErr;
    }

    method RunOnce(bus: Bus, limit: nat, now: Time, faults: Faults) returns (err: Option<RelayError>)
      requires maxAttempts == MAX_ATTEMPTS
      modifies repo`rows
      ensures (repo.rows, err) == Round(old(repo.rows), Batch(old(repo.rows), repo.order, limit, now), decoders, bus.handlers, now, faults)
    {
      hide Dispatch, Batch, Marked, Process;
      var batch;
      err, batch := repo.ListUnpublished(limit, now, faults);
      if err.Some? { return; }
      ghost var listed := repo.rows;
      var published, firstErr;
      err, published, firstErr := DispatchBatch(bus, batch, now, faults);
      if err.Some? { return; }
      PublishedFromBatch(listed, batch, decoders, bus.handlers, now, faults);
      assert forall id | id in published :: id in repo.rows.Keys;
      err := repo.MarkPublished(published, now, faults);
      if err.Some? { return; }
      err := firstErr;
    }
  }
}
