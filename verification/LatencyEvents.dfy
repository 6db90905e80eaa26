/** Latency events: how a callback is classified, and the store that keeps the first event per key.
    Instants and durations are nanoseconds. */
module LatencyEvents {
  import opened Arith
  import opened Wrappers

  datatype Stage = OnSelect | OnInit | OnConfirm

  datatype Outcome = Success | Failure | Timeout | Unknown(name: string)

  datatype Event = Event(sessionID: string, runID: string, stage: Stage, txnID: string, sentAt: int,
                         receivedAt: Option<int>, latencyMs: Option<int>, outcome: Outcome, recordedAt: int)

  datatype Key = Key(runID: string, stage: Stage, txnID: string)

  function KeyOf(e: Event): Key {
    Key(e.runID, e.stage, e.txnID)
  }

  const CALLBACK_TIMEOUT := 30000000000
  const TIMEOUT_THRESHOLD_MS := 30000

  /** Whole milliseconds of a duration, truncated toward zero. */
  function Milliseconds(d: int): int {
    if d >= 0 then d / 1000000 else -(-d / 1000000)
  }

  /** The callback classifier compares truncated milliseconds and the finalizer compares durations;
      they draw the same line. */
  lemma ThresholdAgrees(d: int)
    ensures Milliseconds(d) >= TIMEOUT_THRESHOLD_MS <==> d >= CALLBACK_TIMEOUT
  {
    if d >= 0 {
      DivBounds(d, 1000000);
    } else {
      DivBounds(-d, 1000000);
    }
  }

  /** The event a callback leaves. Without a sent timestamp there is no latency and no timeout. */
  function Classify(sessionID: string, runID: string, stage: Stage, txnID: string,
                    receivedAt: int, sentAt: Option<int>, outcome: Outcome): Event
  {
    match sentAt
    case None =>
      Event(sessionID, runID, stage, txnID, receivedAt, Some(receivedAt), None, outcome, receivedAt)
    case Some(sent) =>
      var ms := Milliseconds(receivedAt - sent);
      Event(sessionID, runID, stage, txnID, sent, Some(receivedAt), Some(ms),
            if ms >= TIMEOUT_THRESHOLD_MS then Timeout else outcome, receivedAt)
  }

  /** No success is recorded with a latency that reaches the timeout threshold. */
  predicate Sound(e: Event) {
    e.outcome.Success? && e.latencyMs.Some? ==> e.latencyMs.value < TIMEOUT_THRESHOLD_MS
  }

  /** A classified callback is a timeout exactly when it took the timeout or longer, whatever it reported,
      and otherwise keeps what it reported. */
  lemma ClassifySound(sessionID: string, runID: string, stage: Stage, txnID: string,
                      receivedAt: int, sentAt: Option<int>, outcome: Outcome)
    requires outcome.Success? || outcome.Failure?
    ensures var e := Classify(sessionID, runID, stage, txnID, receivedAt, sentAt, outcome);
            && Sound(e)
            && KeyOf(e) == Key(runID, stage, txnID)
            && (e.outcome.Timeout? <==> sentAt.Some? && receivedAt - sentAt.value >= CALLBACK_TIMEOUT)
            && (!e.outcome.Timeout? ==> e.outcome == outcome)
  {
    if sentAt.Some? {
      ThresholdAgrees(receivedAt - sentAt.value);
    }
  }

  /** What a classified callback records: with a sent time, that time and the whole milliseconds elapsed since;
      without one, its own arrival and no latency. */
  lemma ClassifyRecords(sessionID: string, runID: string, stage: Stage, txnID: string,
                        receivedAt: int, sentAt: Option<int>, outcome: Outcome)
    ensures var e := Classify(sessionID, runID, stage, txnID, receivedAt, sentAt, outcome);
            && e.sessionID == sessionID && e.receivedAt == Some(receivedAt) && e.recordedAt == receivedAt
            && (sentAt.None? ==> e.sentAt == receivedAt && e.latencyMs.None?)
            && (sentAt.Some? ==>
                  && e.sentAt == sentAt.value && e.latencyMs.Some?
                  && var d, ms := receivedAt - sentAt.value, e.latencyMs.value;
                     if d >= 0 then 1000000 * ms <= d < 1000000 * (ms + 1) else 1000000 * (ms - 1) < d <= 1000000 * ms)
  {
    if sentAt.Some? {
      var d := receivedAt - sentAt.value;
      DivBounds(if d >= 0 then d else -d, 1000000);
    }
  }

  // ---------------------------------------------------------------- the store

  type Store = map<Key, Event>

  /** Insert if absent: an event already classified is never overwritten. */
  function Upsert(s: Store, e: Event): Store {
    if KeyOf(e) in s then s else s[KeyOf(e) := e]
  }

  /** `later` has everything `earlier` has, unchanged. */
  predicate Extends(later: Store, earlier: Store) {
    forall k | k in earlier :: k in later && later[k] == earlier[k]
  }

  /** The events of one run and stage by transaction. */
  function StageView(s: Store, runID: string, stage: Stage): map<string, Event> {
    map k | k in s && k.runID == runID && k.stage == stage :: k.txnID := s[k]
  }

  class MongoStore {
    var events: Store

    constructor ()
      ensures events == map[]
    {
      events := map[];
    }

    /** `ok` is whether the server applied the write. */
    method UpsertRunLatencyEvent(e: Event, ok: bool)
      modifies this
      ensures events == if ok then Upsert(old(events), e) else old(events)
    {
      if ok && KeyOf(e) !in events {
        events := events[KeyOf(e) := e];
      }
    }

    /** An unordered bulk write applies some of its events; `applied` says which. */
    method UpsertRunLatencyEventsBulk(es: seq<Event>, applied: set<string>)
      modifies this
      ensures events == UpsertAll(old(events), es, applied)
    {
      for i := 0 to |es|
        invariant events == UpsertAll(old(events), es[..i], applied)
      {
        if es[i].txnID in applied {
          UpsertRunLatencyEvent(es[i], true);
        }
        assert es[..i + 1][..i] == es[..i];
      }
      assert es[..|es|] == es;
    }

    method GetRunLatencyEventsForStage(runID: string, stage: Stage) returns (out: map<string, Event>)
      ensures out == StageView(events, runID, stage)
    {
      out := map[];
      var todo := events.Keys;
      while todo != {}
        invariant todo <= events.Keys
        invariant forall k | k in events && k !in todo && k.runID == runID && k.stage == stage ::
                    k.txnID in out && out[k.txnID] == events[k]
        invariant forall id | id in out :: Key(runID, stage, id) in events && Key(runID, stage, id) !in todo
        decreases todo
      {
        var k :| k in todo;
        if k.runID == runID && k.stage == stage {
          out := out[k.txnID := events[k]];
        }
        todo := todo - {k};
      }
    }
  }

  /** The given events inserted in turn, skipping those whose transaction is not in `applied`. */
  function UpsertAll(s: Store, es: seq<Event>, applied: set<string>): Store {
    if es == [] then s
    else
      var r := UpsertAll(s, es[..|es| - 1], applied);
      if es[|es| - 1].txnID in applied then Upsert(r, es[|es| - 1]) else r
  }
}
