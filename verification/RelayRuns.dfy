/** Unbounded runs of the relay: what happens to every message, however the rounds go. */
module RelayRuns {
  import opened Common
  import opened Relay

  // ---------- one round, message by message ----------

  // After the loop: a message of the batch is untouched, or its failed dispatch was recorded once.
  lemma {:induction false} ProcessRow(rows: Rows, batch: seq<MessageId>, decoders: set<EventType>,
                                      handlers: map<EventType, seq<HandlerId>>, now: Time, faults: Faults, id: MessageId)
    requires (forall q | q in batch :: q in rows) && id in rows
    requires forall i, j :: 0 <= i < j < |batch| ==> batch[i] != batch[j]
    ensures var p := Process(rows, batch, decoders, handlers, now, faults);
            var result := Dispatch(decoders, handlers, rows[id].eventType, id, faults);
            && id in p.rows
            && (p.rows[id] == rows[id] || (p.rows[id] == Recorded(rows[id], now) && id in batch && result.Some?))
            && (id in p.published ==> id in batch && result.None? && p.rows[id] == rows[id])
            && (p.aborted.None? && id in batch ==> (result.None? <==> id in p.published))
            && (p.aborted.None? && id in batch && result.Some? ==> p.rows[id] == Recorded(rows[id], now))
  {
    hide Dispatch, Recorded, Process;
    if batch == [] {
      ProcessNothing(rows, decoders, handlers, now, faults);
    } else {
      var last := |batch| - 1;
      assert batch[..last + 1] == batch;
      ProcessRow(rows, batch[..last], decoders, handlers, now, faults, id);
      if Process(rows, batch[..last], decoders, handlers, now, faults).aborted.Some? {
        ProcessingStops(rows, batch, last, decoders, handlers, now, faults);
      } else {
        ProcessNext(rows, batch, last, decoders, handlers, now, faults);
        assert batch[last] in rows;
        ProcessKeepsType(rows, batch[..last], decoders, handlers, now, faults, batch[last]);
      }
    }
  }

  lemma {:induction false} ProcessKeepsType(rows: Rows, batch: seq<MessageId>, decoders: set<EventType>,
                                            handlers: map<EventType, seq<HandlerId>>, now: Time, faults: Faults, id: MessageId)
    requires (forall q | q in batch :: q in rows) && id in rows
    ensures var p := Process(rows, batch, decoders, handlers, now, faults);
            id in p.rows && p.rows[id].eventType == rows[id].eventType && (id !in batch ==> p.rows[id] == rows[id])
  {
    if batch != [] {
      ProcessKeepsType(rows, batch[..|batch| - 1], decoders, handlers, now, faults, id);
    }
  }

  // Marking publishes exactly the given messages up to the first that cannot be marked.
  lemma {:induction false} MarkedRow(rows: Rows, ids: seq<MessageId>, now: Time, faults: Faults, id: MessageId)
    requires (forall q | q in ids :: q in rows) && id in rows
    ensures var (after, err) := Marked(rows, ids, now, faults);
            && id in after
            && (after[id] == rows[id] || (after[id] == rows[id].(publishedAt := Some(now)) && id in ids))
            && (err.None? && id in ids ==> after[id].publishedAt == Some(now))
  {
    if ids != [] {
      var last := |ids| - 1;
      MarkedRow(rows, ids[..last], now, faults, id);
    }
  }

  // The fate of one message in one round: untouched; locked; dispatched and published; or dispatched, failed and recorded.
  predicate Fate(row: Row, row': Row, result: Option<RelayError>, now: Time) {
    var locked := row.(lockedAt := Some(now));
    || row' == row
    || (&& Eligible(row, now)
        && (|| row' == locked
            || (row' == locked.(publishedAt := Some(now)) && result.None?)
            || (row' == Recorded(locked, now) && result.Some?)))
  }

  lemma RoundFate(rows: Rows, order: seq<MessageId>, limit: nat, decoders: set<EventType>,
                  handlers: map<EventType, seq<HandlerId>>, now: Time, faults: Faults, id: MessageId)
    requires id in rows
    ensures var batch := Batch(rows, order, limit, now);
            var (after, err) := Round(rows, batch, decoders, handlers, now, faults);
            id in after && Fate(rows[id], after[id], Dispatch(decoders, handlers, rows[id].eventType, id, faults), now)
  {
    hide Process, Marked, Dispatch, Batch;
    var batch := Batch(rows, order, limit, now);
    if faults.listing == NoFault {
      var locked := Locked(rows, batch, now);
      ProcessRow(locked, batch, decoders, handlers, now, faults, id);
      var p := Process(locked, batch, decoders, handlers, now, faults);
      if p.aborted.None? {
        PublishedFromBatch(locked, batch, decoders, handlers, now, faults);
        assert forall q | q in p.published :: q in p.rows.Keys;
        MarkedRow(p.rows, p.published, now, faults, id);
      }
    }
  }

  // A message can be taken again once a minute has passed since it was last locked, unless it is published or given up.
  predicate Waits(row: Row, now: Time) {
    row.publishedAt.None? && row.failedAt.None? && (row.lockedAt.None? || row.lockedAt.value + 60 < now)
  }

  // A batch holds the oldest waiting messages: all of them if it is not full, and none before whom another one waits.
  lemma {:induction false} BatchTakesOldest(rows: Rows, order: seq<MessageId>, limit: nat, now: Time)
    ensures var batch := Batch(rows, order, limit, now);
            && (forall id | id in batch :: id in order && id in rows && Waits(rows[id], now))
            && (|batch| < limit ==> forall id | id in order && id in rows && Waits(rows[id], now) :: id in batch)
            && (forall i, j | && 0 <= i < j < |order| && order[j] in batch && order[j] !in order[..j]
                              && order[i] in rows && Waits(rows[order[i]], now) :: order[i] in batch)
  {
    if order != [] {
      var last := |order| - 1;
      BatchTakesOldest(rows, order[..last], limit, now);
      assert order == order[..last] + [order[last]];
      assert forall j | 0 <= j < last :: order[..last][..j] == order[..j];
    }
  }

  // While a message is locked, no round touches it.
  lemma LockHolds(rows: Rows, order: seq<MessageId>, limit: nat, decoders: set<EventType>,
                  handlers: map<EventType, seq<HandlerId>>, now: Time, faults: Faults, id: MessageId)
    requires id in rows && rows[id].lockedAt.Some? && now <= rows[id].lockedAt.value + 60
    ensures var after := Round(rows, Batch(rows, order, limit, now), decoders, handlers, now, faults).0;
            id in after && after[id] == rows[id]
  {
    hide Round, Batch, Dispatch;
    RoundFate(rows, order, limit, decoders, handlers, now, faults, id);
  }

  // A round without repository faults settles its whole batch: what every subscriber accepted is published,
  // everything else has one more recorded attempt.
  lemma FaultlessRound(rows: Rows, order: seq<MessageId>, limit: nat, decoders: set<EventType>,
                       handlers: map<EventType, seq<HandlerId>>, now: Time, faults: Faults, id: MessageId)
    requires faults.listing == NoFault && faults.recording == {} && faults.marking == {}
    requires id in Batch(rows, order, limit, now)
    ensures var batch := Batch(rows, order, limit, now);
            var (after, err) := Round(rows, batch, decoders, handlers, now, faults);
            var locked := rows[id].(lockedAt := Some(now));
            && id in after
            && after[id] == if Dispatch(decoders, handlers, rows[id].eventType, id, faults).None?
                            then locked.(publishedAt := Some(now)) else Recorded(locked, now)
  {
    hide Process, Marked, Dispatch, Batch;
    var batch := Batch(rows, order, limit, now);
    var locked := Locked(rows, batch, now);
    ProcessRow(locked, batch, decoders, handlers, now, faults, id);
    NothingAborts(locked, batch, decoders, handlers, now, faults);
    var p := Process(locked, batch, decoders, handlers, now, faults);
    PublishedFromBatch(locked, batch, decoders, handlers, now, faults);
    assert forall q | q in p.published :: q in p.rows.Keys;
    MarkedRow(p.rows, p.published, now, faults, id);
    AllMarked(p.rows, p.published, now, faults);
  }

  // Dispatching a message of the table.
  function DispatchRow(rows: Rows, id: MessageId, decoders: set<EventType>, handlers: map<EventType, seq<HandlerId>>,
                       faults: Faults): Option<RelayError>
    requires id in rows
  {
    Dispatch(decoders, handlers, rows[id].eventType, id, faults)
  }

  // err is the failure of the first message of the batch that fails, or nil if none does.
  predicate FirstFailure(rows: Rows, batch: seq<MessageId>, decoders: set<EventType>, handlers: map<EventType, seq<HandlerId>>,
                         faults: Faults, err: Option<RelayError>)
    requires forall id | id in batch :: id in rows
  {
    if err.None? then forall i | 0 <= i < |batch| :: DispatchRow(rows, batch[i], decoders, handlers, faults).None?
    else exists i | 0 <= i < |batch| ::
           && DispatchRow(rows, batch[i], decoders, handlers, faults) == err
           && forall j | 0 <= j < i :: DispatchRow(rows, batch[j], decoders, handlers, faults).None?
  }

  lemma FirstFailureLonger(rows: Rows, batch: seq<MessageId>, decoders: set<EventType>, handlers: map<EventType, seq<HandlerId>>,
                           faults: Faults, err: Option<RelayError>)
    requires (forall id | id in batch :: id in rows) && batch != []
    requires FirstFailure(rows, batch[..|batch| - 1], decoders, handlers, faults, err)
    ensures FirstFailure(rows, batch, decoders, handlers, faults,
                         if err.Some? then err else DispatchRow(rows, batch[|batch| - 1], decoders, handlers, faults))
  {
    hide DispatchRow;
    var last := |batch| - 1;
    var init := batch[..last];
    assert forall j | 0 <= j < last :: init[j] == batch[j];
    if err.Some? {
      var i :| 0 <= i < last && DispatchRow(rows, init[i], decoders, handlers, faults) == err
               && forall j | 0 <= j < i :: DispatchRow(rows, init[j], decoders, handlers, faults).None?;
      assert DispatchRow(rows, batch[i], decoders, handlers, faults) == err;
    }
  }

  lemma {:induction false} FirstErrorIsFirst(rows: Rows, batch: seq<MessageId>, decoders: set<EventType>,
                                             handlers: map<EventType, seq<HandlerId>>, now: Time, faults: Faults)
    requires (forall id | id in batch :: id in rows) && faults.recording == {}
    ensures var p := Process(rows, batch, decoders, handlers, now, faults);
            p.aborted.None? && FirstFailure(rows, batch, decoders, handlers, faults, p.firstErr)
  {
    if batch != [] {
      hide Dispatch, Recorded, FirstFailure;
      var init, last := batch[..|batch| - 1], batch[|batch| - 1];
      FirstErrorIsFirst(rows, init, decoders, handlers, now, faults);
      ProcessKeepsType(rows, init, decoders, handlers, now, faults, last);
      FirstFailureLonger(rows, batch, decoders, handlers, faults, Process(rows, init, decoders, handlers, now, faults).firstErr);
    }
  }

  // A round without repository faults returns the error of its first failing message, and nil exactly if none fails.
  lemma RoundReportsFirstFailure(rows: Rows, order: seq<MessageId>, limit: nat, decoders: set<EventType>,
                                 handlers: map<EventType, seq<HandlerId>>, now: Time, faults: Faults)
    requires faults.listing == NoFault && faults.recording == {} && faults.marking == {}
    ensures var batch := Batch(rows, order, limit, now);
            FirstFailure(rows, batch, decoders, handlers, faults, Round(rows, batch, decoders, handlers, now, faults).1)
  {
    hide Dispatch, Process, Marked, Batch;
    var batch := Batch(rows, order, limit, now);
    var locked := Locked(rows, batch, now);
    FirstErrorIsFirst(locked, batch, decoders, handlers, now, faults);
    PublishedFromBatch(locked, batch, decoders, handlers, now, faults);
    var p := Process(locked, batch, decoders, handlers, now, faults);
    assert forall id | id in p.published :: id in p.rows.Keys;
    AllMarked(p.rows, p.published, now, faults);
    assert forall id | id in batch :: locked[id].eventType == rows[id].eventType;
  }

  lemma {:induction false} NothingAborts(rows: Rows, batch: seq<MessageId>, decoders: set<EventType>,
                                         handlers: map<EventType, seq<HandlerId>>, now: Time, faults: Faults)
    requires (forall q | q in batch :: q in rows) && faults.recording == {}
    ensures Process(rows, batch, decoders, handlers, now, faults).aborted.None?
  {
    if batch != [] {
      NothingAborts(rows, batch[..|batch| - 1], decoders, handlers, now, faults);
    }
  }

  lemma {:induction false} AllMarked(rows: Rows, ids: seq<MessageId>, now: Time, faults: Faults)
    requires (forall q | q in ids :: q in rows) && faults.marking == {}
    ensures Marked(rows, ids, now, faults).1.None?
  {
    if ids != [] {
      AllMarked(rows, ids[..|ids| - 1], now, faults);
    }
  }

  // When a failure cannot be recorded the round stops: nothing is published, and every message whose subscribers had
  // all succeeded stays eligible for another delivery once its lock has run out.
  lemma AbortedRoundRedelivers(rows: Rows, order: seq<MessageId>, limit: nat, decoders: set<EventType>,
                               handlers: map<EventType, seq<HandlerId>>, now: Time, faults: Faults, id: MessageId, later: Time)
    requires var batch := Batch(rows, order, limit, now);
             var (after, err) := Round(rows, batch, decoders, handlers, now, faults);
             err.Some? && err.value.RecordingFailed? && id in batch
    requires Dispatch(decoders, handlers, rows[id].eventType, id, faults).None? && later > now + 60
    ensures var batch := Batch(rows, order, limit, now);
            var (after, err) := Round(rows, batch, decoders, handlers, now, faults);
            && (forall q | q in rows :: q in after && after[q].publishedAt == rows[q].publishedAt)
            && Eligible(after[id], later)
  {
    var batch := Batch(rows, order, limit, now);
    var locked := Locked(rows, batch, now);
    var p := Process(locked, batch, decoders, handlers, now, faults);
    if p.aborted.None? {
      PublishedFromBatch(locked, batch, decoders, handlers, now, faults);
      assert forall q | q in p.published :: q in p.rows.Keys;
      MarkErrorsAreMarkErrors(p.rows, p.published, now, faults, locked, batch, decoders, handlers);
    }
    forall q | q in rows
      ensures q in p.rows && p.rows[q].publishedAt == rows[q].publishedAt
    {
      ProcessRow(locked, batch, decoders, handlers, now, faults, q);
    }
    ProcessRow(locked, batch, decoders, handlers, now, faults, id);
  }

  // In any round a message that every subscriber accepted ends up published, or is delivered again once its lock has run
  // out. A failing mark leaves its own message, and those behind it, to the second fate.
  lemma AcceptedOrRedelivered(rows: Rows, order: seq<MessageId>, limit: nat, decoders: set<EventType>,
                              handlers: map<EventType, seq<HandlerId>>, now: Time, faults: Faults, id: MessageId, later: Time)
    requires id in Batch(rows, order, limit, now)
    requires Dispatch(decoders, handlers, rows[id].eventType, id, faults).None? && later > now + 60
    ensures var batch := Batch(rows, order, limit, now);
            var (after, err) := Round(rows, batch, decoders, handlers, now, faults);
            && id in after
            && (after[id].publishedAt == Some(now) || Eligible(after[id], later))
            && (err.None? ==> after[id].publishedAt == Some(now))
  {
    hide Round;
    RoundFate(rows, order, limit, decoders, handlers, now, faults, id);
    hide Fate, Dispatch;
    CompleteRoundPublishes(rows, order, limit, decoders, handlers, now, faults, id);
    FateOfAccepted(rows, order, limit, decoders, handlers, now, faults, id, later);
  }

  lemma FateOfAccepted(rows: Rows, order: seq<MessageId>, limit: nat, decoders: set<EventType>,
                       handlers: map<EventType, seq<HandlerId>>, now: Time, faults: Faults, id: MessageId, later: Time)
    requires id in Batch(rows, order, limit, now)
    requires Dispatch(decoders, handlers, rows[id].eventType, id, faults).None? && later > now + 60
    ensures var after := Round(rows, Batch(rows, order, limit, now), decoders, handlers, now, faults).0;
            id in after && (after[id].publishedAt == Some(now) || Eligible(after[id], later))
  {
    hide Round, Batch, Dispatch;
    RoundFate(rows, order, limit, decoders, handlers, now, faults, id);
  }

  lemma CompleteRoundPublishes(rows: Rows, order: seq<MessageId>, limit: nat, decoders: set<EventType>,
                               handlers: map<EventType, seq<HandlerId>>, now: Time, faults: Faults, id: MessageId)
    requires id in Batch(rows, order, limit, now) && Dispatch(decoders, handlers, rows[id].eventType, id, faults).None?
    ensures var (after, err) := Round(rows, Batch(rows, order, limit, now), decoders, handlers, now, faults);
            err.None? ==> id in after && after[id].publishedAt == Some(now)
  {
    hide Process, Marked, Dispatch, Batch;
    var batch := Batch(rows, order, limit, now);
    if faults.listing == NoFault && Round(rows, batch, decoders, handlers, now, faults).1.None? {
      var locked := Locked(rows, batch, now);
      var p := Process(locked, batch, decoders, handlers, now, faults);
      ProcessRow(locked, batch, decoders, handlers, now, faults, id);
      PublishedFromBatch(locked, batch, decoders, handlers, now, faults);
      assert forall q | q in p.published :: q in p.rows.Keys;
      MarkedRow(p.rows, p.published, now, faults, id);
    }
  }

  // Marking goes in order up to its first fault: exactly the messages before that one are published.
  lemma {:induction false} MarkedUpToFault(rows: Rows, ids: seq<MessageId>, now: Time, faults: Faults) returns (n: nat)
    requires (forall q | q in ids :: q in rows) && (forall i, j :: 0 <= i < j < |ids| ==> ids[i] != ids[j])
    ensures var (after, err) := Marked(rows, ids, now, faults);
            && n <= |ids|
            && (forall i | 0 <= i < |ids| :: ids[i] in after
                  && after[ids[i]] == if i < n then rows[ids[i]].(publishedAt := Some(now)) else rows[ids[i]])
            && (err.None? <==> n == |ids|)
            && (err.Some? ==> ids[n] in faults.marking && err == Some(MarkingFailed(ids[n])))
            && (forall i | 0 <= i < n :: ids[i] !in faults.marking)
  {
    if ids == [] {
      n := 0;
    } else {
      var last := |ids| - 1;
      n := MarkedUpToFault(rows, ids[..last], now, faults);
      if n == last && ids[last] !in faults.marking {
        n := last + 1;
      }
      MarkedKeepsOthers(rows, ids[..last], now, faults, ids[last]);
      assert forall i | 0 <= i < last :: ids[..last][i] == ids[i];
    }
  }

  lemma {:induction false} MarkedKeepsOthers(rows: Rows, ids: seq<MessageId>, now: Time, faults: Faults, id: MessageId)
    requires (forall q | q in ids :: q in rows) && id in rows && id !in ids
    ensures id in Marked(rows, ids, now, faults).0 && Marked(rows, ids, now, faults).0[id] == rows[id]
  {
    if ids != [] {
      MarkedKeepsOthers(rows, ids[..|ids| - 1], now, faults, id);
    }
  }

  // A round that gets as far as marking never returns a recording error.
  lemma MarkErrorsAreMarkErrors(rows: Rows, ids: seq<MessageId>, now: Time, faults: Faults, locked: Rows, batch: seq<MessageId>,
                                decoders: set<EventType>, handlers: map<EventType, seq<HandlerId>>)
    requires (forall q | q in ids :: q in rows) && (forall q | q in batch :: q in locked)
    ensures Marked(rows, ids, now, faults).1.Some? ==> Marked(rows, ids, now, faults).1.value.MarkingFailed?
    ensures var first := Process(locked, batch, decoders, handlers, now, faults).firstErr;
            first.Some? ==> !first.value.RecordingFailed?
  {
    MarkErrorKind(rows, ids, now, faults);
    FirstErrorKind(locked, batch, decoders, handlers, now, faults);
  }

  lemma {:induction false} MarkErrorKind(rows: Rows, ids: seq<MessageId>, now: Time, faults: Faults)
    requires forall q | q in ids :: q in rows
    ensures Marked(rows, ids, now, faults).1.Some? ==> Marked(rows, ids, now, faults).1.value.MarkingFailed?
  {
    if ids != [] {
      MarkErrorKind(rows, ids[..|ids| - 1], now, faults);
    }
  }

  lemma {:induction false} FirstErrorKind(rows: Rows, batch: seq<MessageId>, decoders: set<EventType>,
                                          handlers: map<EventType, seq<HandlerId>>, now: Time, faults: Faults)
    requires forall q | q in batch :: q in rows
    ensures var first := Process(rows, batch, decoders, handlers, now, faults).firstErr;
            first.Some? ==> !first.value.RecordingFailed?
  {
    if batch != [] {
      FirstErrorKind(rows, batch[..|batch| - 1], decoders, handlers, now, faults);
    }
  }

  // ---------- runs ----------

  datatype Outbox = Outbox(rows: Rows, order: seq<MessageId>)

  datatype RelayStep =
    | Added(id: MessageId, t: EventType)
    | Ran(limit: nat, decoders: set<EventType>, handlers: map<EventType, seq<HandlerId>>, now: Time, faults: Faults)

  function After(o: Outbox, s: RelayStep): Outbox {
    match s
    case Added(id, t) => if id in o.rows then o else Outbox(o.rows[id := Row(t, 0, None, None, None)], o.order + [id])
    case Ran(limit, decoders, handlers, now, faults) =>
      o.(rows := Round(o.rows, Batch(o.rows, o.order, limit, now), decoders, handlers, now, faults).0)
  }

  function Run(o: Outbox, steps: seq<RelayStep>): Outbox {
    if steps == [] then o else After(Run(o, steps[..|steps| - 1]), steps[|steps| - 1])
  }

  // At most five attempts, given up exactly at the fifth, and never both given up and published.
  predicate RowOk(row: Row) {
    && row.attempts <= 5
    && (row.failedAt.Some? <==> row.attempts == 5)
    && !(row.publishedAt.Some? && row.failedAt.Some?)
  }

  // What a step may do to a message: its outcome, once reached, is final, and attempts only grow.
  predicate RowAdvances(row: Row, row': Row) {
    && row'.eventType == row.eventType && row.attempts <= row'.attempts
    && (row.publishedAt.Some? || row.failedAt.Some? ==> row' == row)
  }

  lemma StepKeepsRow(o: Outbox, s: RelayStep, id: MessageId)
    requires id in o.rows && RowOk(o.rows[id])
    ensures id in After(o, s).rows && RowOk(After(o, s).rows[id]) && RowAdvances(o.rows[id], After(o, s).rows[id])
  {
    if s.Ran? {
      RoundFate(o.rows, o.order, s.limit, s.decoders, s.handlers, s.now, s.faults, id);
    }
  }

  lemma StepAddsNothingElse(o: Outbox, s: RelayStep, id: MessageId)
    requires id !in o.rows && id in After(o, s).rows
    ensures s.Added? && s.id == id && After(o, s).rows[id] == Row(s.t, 0, None, None, None)
  {
    assert s.Ran? ==> After(o, s).rows.Keys == o.rows.Keys by {
      if s.Ran? {
        RoundKeepsKeys(o.rows, Batch(o.rows, o.order, s.limit, s.now), s.decoders, s.handlers, s.now, s.faults);
      }
    }
  }

  lemma RoundKeepsKeys(rows: Rows, batch: seq<MessageId>, decoders: set<EventType>, handlers: map<EventType, seq<HandlerId>>,
                       now: Time, faults: Faults)
    requires forall id | id in batch :: id in rows
    ensures Round(rows, batch, decoders, handlers, now, faults).0.Keys == rows.Keys
  {
  }

  // In every run every message has at most five recorded failures, is given up exactly after the fifth, and is never
  // both given up and published.
  lemma {:induction false} RunKeepsRows(steps: seq<RelayStep>, id: MessageId)
    requires id in Run(Outbox(map[], []), steps).rows
    ensures RowOk(Run(Outbox(map[], []), steps).rows[id])
  {
    if steps != [] {
      var before := Run(Outbox(map[], []), steps[..|steps| - 1]);
      if id in before.rows {
        RunKeepsRows(steps[..|steps| - 1], id);
        StepKeepsRow(before, steps[|steps| - 1], id);
      } else {
        StepAddsNothingElse(before, steps[|steps| - 1], id);
      }
    }
  }

  // A message is published in a round only if it decoded and every subscriber accepted it in that very round.
  lemma PublishedMeansHandled(o: Outbox, s: RelayStep, id: MessageId)
    requires id in o.rows && o.rows[id].publishedAt.None? && id in After(o, s).rows && After(o, s).rows[id].publishedAt.Some?
    ensures s.Ran? && o.rows[id].eventType in s.decoders && id !in s.faults.garbled
    ensures AllHandle(s.handlers, o.rows[id].eventType, id, s.faults)
    ensures Eligible(o.rows[id], s.now)
  {
    if s.Ran? {
      RoundFate(o.rows, o.order, s.limit, s.decoders, s.handlers, s.now, s.faults, id);
    }
  }

  // Published and given-up messages stay as they are for ever.
  lemma {:induction false} OutcomesAreFinal(o: Outbox, steps: seq<RelayStep>, id: MessageId)
    requires id in o.rows && RowOk(o.rows[id])
    ensures var o' := Run(o, steps); id in o'.rows && RowOk(o'.rows[id]) && RowAdvances(o.rows[id], o'.rows[id])
  {
    if steps != [] {
      OutcomesAreFinal(o, steps[..|steps| - 1], id);
      StepKeepsRow(Run(o, steps[..|steps| - 1]), steps[|steps| - 1], id);
    }
  }

  // So a message that was taken stays as it was left for a minute, whatever rounds come.
  lemma {:induction false} LockedThroughRun(o: Outbox, steps: seq<RelayStep>, id: MessageId)
    requires id in o.rows && o.rows[id].lockedAt.Some?
    requires forall s | s in steps && s.Ran? :: s.now <= o.rows[id].lockedAt.value + 60
    ensures id in Run(o, steps).rows && Run(o, steps).rows[id] == o.rows[id]
  {
    if steps != [] {
      var before, s := Run(o, steps[..|steps| - 1]), steps[|steps| - 1];
      LockedThroughRun(o, steps[..|steps| - 1], id);
      assert s in steps;
      if s.Ran? {
        LockHolds(before.rows, before.order, s.limit, s.decoders, s.handlers, s.now, s.faults, id);
      }
    }
  }
}
