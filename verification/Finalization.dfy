/** Finalizing the latencies of one callback stage of a run: transactions without an event get one, and a
    summary is computed over all of them. */
module Finalization {
  import opened Arith
  import opened Counting
  import opened LatencyEvents
  import Percentiles
  import opened Wrappers

  /** Everything the finalizer reads: the transactions sent, their timestamps, and the events stored so far. */
  datatype Input = Input(sessionID: string, runID: string, stage: Stage, cutoff: int,
                         requests: seq<string>, sentAt: map<string, int>, existing: map<string, Event>)

  /** Transactions that were sent or called back; the empty id is no transaction. */
  function Population(f: Input): set<string> {
    (set id | id in f.requests && id != "") + (set id | id in f.existing && id != "")
  }

  /** The event for a transaction nobody called back for. */
  function MissingEvent(f: Input, txnID: string): Event {
    if txnID in f.sentAt then
      Event(f.sessionID, f.runID, f.stage, txnID, f.sentAt[txnID], None, None,
            if f.cutoff - f.sentAt[txnID] >= CALLBACK_TIMEOUT then Timeout else Failure, f.cutoff)
    else Event(f.sessionID, f.runID, f.stage, txnID, f.cutoff, None, None, Failure, f.cutoff)
  }

  function Missing(f: Input): set<string> {
    Population(f) - f.existing.Keys
  }

  /** One event per transaction of the population. */
  function Final(f: Input): map<string, Event> {
    map id | id in Population(f) :: if id in f.existing then f.existing[id] else MissingEvent(f, id)
  }

  function IsSuccess(evs: map<string, Event>): string -> bool {
    (id: string) => id in evs && evs[id].outcome.Success?
  }

  function IsTimeout(evs: map<string, Event>): string -> bool {
    (id: string) => id in evs && evs[id].outcome.Timeout?
  }

  /** Failures, and outcomes nobody knows. */
  function IsFailure(evs: map<string, Event>): string -> bool {
    (id: string) => id in evs && !evs[id].outcome.Success? && !evs[id].outcome.Timeout?
  }

  /** The latencies of the successful events, in the order given. */
  function Latencies(evs: map<string, Event>, order: seq<string>): seq<int> {
    if order == [] then []
    else
      var id := order[|order| - 1];
      Latencies(evs, order[..|order| - 1]) +
      (if id in evs && evs[id].outcome.Success? && evs[id].latencyMs.Some? then [evs[id].latencyMs.value] else [])
  }

  datatype Summary = Summary(cutoff: int, total: nat, success: nat, failure: nat, timeout: nat, stats: Percentiles.Summary)

  /** The summary of a set of events, visiting them in a given order. */
  function SummaryOf(evs: map<string, Event>, order: seq<string>, cutoff: int): Summary {
    Summary(cutoff, |order|, Count(order, IsSuccess(evs)), Count(order, IsFailure(evs)), Count(order, IsTimeout(evs)),
            Percentiles.Summarize(Latencies(evs, order)))
  }

  /** `order` lists the set once each. */
  ghost predicate Lists(order: seq<string>, ids: set<string>) {
    && (forall i, j | 0 <= i < j < |order| :: order[i] != order[j])
    && (forall id :: id in order <==> id in ids)
  }

  // ---------------------------------------------------------------- the imperative form

  method SetOfIds(f: Input) returns (ids: set<string>)
    ensures ids == Population(f)
  {
    ids := {};
    for i := 0 to |f.requests|
      invariant ids == set id | id in f.requests[..i] && id != ""
    {
      if f.requests[i] != "" {
        ids := ids + {f.requests[i]};
      }
      assert f.requests[..i + 1] == f.requests[..i] + [f.requests[i]];
    }
    assert f.requests[..|f.requests|] == f.requests;
    ghost var sent := ids;
    var todo := f.existing.Keys;
    while todo != {}
      invariant todo <= f.existing.Keys
      invariant ids == sent + set id | id in f.existing.Keys - todo && id != ""
      decreases todo
    {
      var id :| id in todo;
      if id != "" {
        ids := ids + {id};
      }
      todo := todo - {id};
    }
  }

  /** The slice of the population in whatever order the set yields it. */
  method InSomeOrder(ids: set<string>) returns (order: seq<string>)
    ensures Lists(order, ids)
  {
    order := [];
    var todo := ids;
    while todo != {}
      invariant todo <= ids
      invariant Lists(order, ids - todo)
      decreases todo
    {
      var id :| id in todo;
      order := order + [id];
      todo := todo - {id};
    }
    assert ids - todo == ids;
  }

  /** Which writes the server applies: the whole bulk write, or a part of it followed by single upserts. */
  datatype Writes = Writes(bulkOk: bool, bulkApplied: set<string>, singleOk: set<string>) {
    function Reached(ids: set<string>): set<string> {
      if bulkOk then ids else ids * (bulkApplied + singleOk)
    }
  }

  /** What the finalizer has accumulated after some transactions. */
  datatype Tally = Tally(success: nat, failure: nat, timeout: nat, latencies: seq<int>, missing: seq<Event>) {
    function AddEvent(e: Event): Tally {
      match e.outcome
      case Success =>
        this.(success := success + 1, latencies := if e.latencyMs.Some? then latencies + [e.latencyMs.value] else latencies)
      case Timeout => this.(timeout := timeout + 1)
      case _ => this.(failure := failure + 1)
    }

    function Visit(f: Input, id: string): Tally {
      if id in f.existing then AddEvent(f.existing[id])
      else
        var e := MissingEvent(f, id);
        AddEvent(e).(missing := missing + [e])
    }
  }

  function Visited(f: Input, order: seq<string>): Tally {
    if order == [] then Tally(0, 0, 0, [], []) else Visited(f, order[..|order| - 1]).Visit(f, order[|order| - 1])
  }

  method FinalizeStage(store: MongoStore, f: Input, w: Writes) returns (sum: Summary, ghost order: seq<string>)
    requires f.existing == StageView(store.events, f.runID, f.stage)
    modifies store
    ensures Lists(order, Population(f)) && sum == SummaryOf(Final(f), order, f.cutoff)
    ensures store.events == Absorb(old(store.events), f, w.Reached(Missing(f)))
  {
    var ids := SetOfIds(f);
    var txnIDs := InSomeOrder(ids);
    order := txnIDs;
    var t := CountOutcomes(f, txnIDs);
    VisitedMeaning(f, order);
    if |t.missing| > 0 {
      WriteMissing(store, f, w, t.missing, order);
    } else {
      NoMissing(f, order);
      assert w.Reached(Missing(f)) == {};
    }
    sum := SummaryFrom(f, txnIDs, t);
  }

  // ---------------------------------------------------------------- the three stages of a run

  function StageAt(n: nat): Stage
    requires n < 3
  {
    if n == 0 then OnSelect else if n == 1 then OnInit else OnConfirm
  }

  function Position(st: Stage): (n: nat)
    ensures n < 3 && StageAt(n) == st
  {
    match st
    case OnSelect => 0
    case OnInit => 1
    case OnConfirm => 2
  }

  /** What the run log and the database answer while one stage is finalized: the requests listed, if they can be
      listed, their timestamps, whether the events can be fetched, which event writes reach the server, and whether
      the summary is stored. */
  datatype Reading = Reading(listed: bool, requests: seq<string>, sentAt: map<string, int>, fetched: bool, writes: Writes, stored: bool)

  function InputOf(s: Store, sessionID: string, runID: string, stage: Stage, cutoff: int, r: Reading): Input {
    Input(sessionID, runID, stage, cutoff, r.requests, r.sentAt, StageView(s, runID, stage))
  }

  /** The store after one stage: its missing events absorbed, unless its requests or events cannot be read. */
  function AbsorbStage(s: Store, sessionID: string, runID: string, cutoff: int, st: Stage, r: Reading): Store {
    var f := InputOf(s, sessionID, runID, st, cutoff, r);
    if r.listed && r.fetched then Absorb(s, f, r.writes.Reached(Missing(f))) else s
  }

  /** The store after the first stages. */
  function AbsorbStages(s: Store, sessionID: string, runID: string, cutoff: int, rs: Stage -> Reading, n: nat): Store
    requires n <= 3
  {
    if n == 0 then s
    else AbsorbStage(AbsorbStages(s, sessionID, runID, cutoff, rs, n - 1), sessionID, runID, cutoff, StageAt(n - 1), rs(StageAt(n - 1)))
  }

  /** Absorbing one stage does not show in another, nor in another run. */
  lemma AbsorbElsewhere(s: Store, f: Input, ids: set<string>, runID: string, stage: Stage)
    requires f.runID != runID || f.stage != stage
    ensures StageView(Absorb(s, f, ids), runID, stage) == StageView(s, runID, stage)
  {
  }

  /** No stage sees what the finalizer wrote for an earlier one. */
  lemma {:induction false} StagesIndependent(s: Store, sessionID: string, runID: string, cutoff: int, rs: Stage -> Reading,
                                             n: nat, st: Stage)
    requires n <= Position(st)
    ensures StageView(AbsorbStages(s, sessionID, runID, cutoff, rs, n), runID, st) == StageView(s, runID, st)
  {
    if n > 0 {
      var pre, r := AbsorbStages(s, sessionID, runID, cutoff, rs, n - 1), rs(StageAt(n - 1));
      var f := InputOf(pre, sessionID, runID, StageAt(n - 1), cutoff, r);
      StagesIndependent(s, sessionID, runID, cutoff, rs, n - 1, st);
      AbsorbElsewhere(pre, f, r.writes.Reached(Missing(f)), runID, st);
    }
  }

  /** After the three stages a stage holds what it held, and, if it could be read, the event of each missing
      transaction that the bulk write or the one-by-one writes reached; and nothing else. */
  lemma StoreAfterStages(s: Store, sessionID: string, runID: string, cutoff: int, rs: Stage -> Reading, st: Stage, id: string)
    ensures var after, r := StageView(AbsorbStages(s, sessionID, runID, cutoff, rs, 3), runID, st), rs(st);
            var f := InputOf(s, sessionID, runID, st, cutoff, r);
            if Key(runID, st, id) in s then id in after && after[id] == s[Key(runID, st, id)]
            else if r.listed && r.fetched && id in r.requests && id != ""
                    && (r.writes.bulkOk || id in r.writes.bulkApplied || id in r.writes.singleOk)
            then id in after && after[id] == MissingEvent(f, id)
            else id !in after
  {
    var n := Position(st);
    var pre := AbsorbStages(s, sessionID, runID, cutoff, rs, n);
    StagesIndependent(s, sessionID, runID, cutoff, rs, n, st);
    LaterStages(s, sessionID, runID, cutoff, rs, n + 1, 3, st);
    StageAbsorbed(pre, sessionID, runID, cutoff, st, rs(st), id);
    assert Key(runID, st, id) in s <==> id in StageView(s, runID, st);
    assert InputOf(pre, sessionID, runID, st, cutoff, rs(st)) == InputOf(s, sessionID, runID, st, cutoff, rs(st));
  }

  lemma {:induction false} LaterStages(s: Store, sessionID: string, runID: string, cutoff: int, rs: Stage -> Reading,
                                       m: nat, n: nat, st: Stage)
    requires Position(st) < m <= n <= 3
    ensures StageView(AbsorbStages(s, sessionID, runID, cutoff, rs, n), runID, st)
         == StageView(AbsorbStages(s, sessionID, runID, cutoff, rs, m), runID, st)
  {
    if m < n {
      var pre, r := AbsorbStages(s, sessionID, runID, cutoff, rs, n - 1), rs(StageAt(n - 1));
      var f := InputOf(pre, sessionID, runID, StageAt(n - 1), cutoff, r);
      LaterStages(s, sessionID, runID, cutoff, rs, m, n - 1, st);
      AbsorbElsewhere(pre, f, r.writes.Reached(Missing(f)), runID, st);
    }
  }

  lemma StageAbsorbed(s: Store, sessionID: string, runID: string, cutoff: int, st: Stage, r: Reading, id: string)
    ensures var view, after := StageView(s, runID, st), StageView(AbsorbStage(s, sessionID, runID, cutoff, st, r), runID, st);
            if id in view then id in after && after[id] == view[id]
            else if r.listed && r.fetched && id in r.requests && id != ""
                    && (r.writes.bulkOk || id in r.writes.bulkApplied || id in r.writes.singleOk)
            then id in after && after[id] == MissingEvent(InputOf(s, sessionID, runID, st, cutoff, r), id)
            else id !in after
  {
    var f, k := InputOf(s, sessionID, runID, st, cutoff, r), Key(runID, st, id);
    assert k in s <==> id in StageView(s, runID, st);
    assert id in Missing(f) <==> id !in StageView(s, runID, st) && id in r.requests && id != "";
  }

  /** Whether the finalizer stores a summary for a stage. */
  predicate Summarized(r: Reading) {
    r.listed && r.fetched && r.stored
  }

  /** A summary of a stage's completed events, in some order of its population. */
  ghost predicate Summarizes(sum: Summary, f: Input) {
    exists order :: Lists(order, Population(f)) && sum == SummaryOf(Final(f), order, f.cutoff)
  }

  predicate SameSummary(before: map<Stage, Summary>, sums: map<Stage, Summary>, st: Stage) {
    (st in sums <==> st in before) && (st in before ==> sums[st] == before[st])
  }

  /** The summary stored for a stage, if it is stored at all, is that of the stage's events as given. */
  ghost predicate StageSummarized(before: map<Stage, Summary>, sums: map<Stage, Summary>, st: Stage, r: Reading, f: Input) {
    if Summarized(r) then st in sums && Summarizes(sums[st], f) else SameSummary(before, sums, st)
  }

  /** One stage: skipped when it cannot be read. */
  method FinalizeNext(store: MongoStore, sessionID: string, runID: string, cutoff: int, st: Stage, r: Reading, before: map<Stage, Summary>)
    returns (sums: map<Stage, Summary>)
    modifies store
    ensures store.events == AbsorbStage(old(store.events), sessionID, runID, cutoff, st, r)
    ensures StageSummarized(before, sums, st, r, InputOf(old(store.events), sessionID, runID, st, cutoff, r))
    ensures forall other: Stage | other != st :: SameSummary(before, sums, other)
  {
    sums := before;
    if !r.listed || !r.fetched {
      return;
    }
    var existing := store.GetRunLatencyEventsForStage(runID, st);
    var f := Input(sessionID, runID, st, cutoff, r.requests, r.sentAt, existing);
    var sum, order := FinalizeStage(store, f, r.writes);
    assert Summarizes(sum, f);
    if r.stored {
      sums := sums[st := sum];
    }
  }

  /** The summaries of the first stages, each of its events as the store held them at the start. */
  ghost predicate StagesSummarized(s: Store, sessionID: string, runID: string, cutoff: int, rs: Stage -> Reading,
                                   before: map<Stage, Summary>, sums: map<Stage, Summary>, n: nat) {
    forall st: Stage ::
      if Position(st) < n then StageSummarized(before, sums, st, rs(st), InputOf(s, sessionID, runID, st, cutoff, rs(st)))
      else SameSummary(before, sums, st)
  }

  lemma OneMoreStage(s: Store, sessionID: string, runID: string, cutoff: int, rs: Stage -> Reading,
                     before: map<Stage, Summary>, mid: map<Stage, Summary>, sums: map<Stage, Summary>, n: nat)
    requires n < 3 && StagesSummarized(s, sessionID, runID, cutoff, rs, before, mid, n)
    requires var st := StageAt(n); StageSummarized(mid, sums, st, rs(st), InputOf(s, sessionID, runID, st, cutoff, rs(st)))
    requires forall other: Stage | other != StageAt(n) :: SameSummary(mid, sums, other)
    ensures StagesSummarized(s, sessionID, runID, cutoff, rs, before, sums, n + 1)
  {
    forall st: Stage
      ensures if Position(st) < n + 1 then StageSummarized(before, sums, st, rs(st), InputOf(s, sessionID, runID, st, cutoff, rs(st)))
              else SameSummary(before, sums, st)
    {
      if st != StageAt(n) {
        assert SameSummary(mid, sums, st);
      } else {
        assert SameSummary(before, mid, st);
      }
    }
  }

  /** All three stages of a run: each summary stored is that of its own stage as the store held it before the
      finalizer began. */
  method FinalizeRunLatencies(store: MongoStore, sessionID: string, runID: string, cutoff: int, rs: Stage -> Reading,
                              before: map<Stage, Summary>)
    returns (sums: map<Stage, Summary>)
    modifies store
    ensures store.events == AbsorbStages(old(store.events), sessionID, runID, cutoff, rs, 3)
    ensures StagesSummarized(old(store.events), sessionID, runID, cutoff, rs, before, sums, 3)
    ensures forall st: Stage ::
              if rs(st).listed && rs(st).fetched && rs(st).stored
              then st in sums && Summarizes(sums[st], InputOf(old(store.events), sessionID, runID, st, cutoff, rs(st)))
              else SameSummary(before, sums, st)
  {
    sums := before;
    ghost var s := store.events;
    for n := 0 to 3
      invariant store.events == AbsorbStages(s, sessionID, runID, cutoff, rs, n)
      invariant StagesSummarized(s, sessionID, runID, cutoff, rs, before, sums, n)
    {
      var mid := sums;
      StagesIndependent(s, sessionID, runID, cutoff, rs, n, StageAt(n));
      sums := FinalizeNext(store, sessionID, runID, cutoff, StageAt(n), rs(StageAt(n)), mid);
      OneMoreStage(s, sessionID, runID, cutoff, rs, before, mid, sums, n);
    }
  }

  method SummaryFrom(f: Input, txnIDs: seq<string>, t: Tally) returns (sum: Summary)
    requires t == Visited(f, txnIDs) && Lists(txnIDs, Population(f))
    ensures sum == SummaryOf(Final(f), txnIDs, f.cutoff)
  {
    VisitedMeaning(f, txnIDs);
    var sample := new int[|t.latencies|](i requires 0 <= i < |t.latencies| => t.latencies[i]);
    assert sample[..] == t.latencies;
    var avg, p90, p95, p99 := Percentiles.ComputeSummary(sample);
    sum := Summary(f.cutoff, |txnIDs|, t.success, t.failure, t.timeout, Percentiles.Summary(avg, p90, p95, p99));
  }

  method CountOutcomes(f: Input, txnIDs: seq<string>) returns (t: Tally)
    ensures t == Visited(f, txnIDs)
  {
    var success, failure, timeout := 0, 0, 0;
    var latencies: seq<int> := [];
    var missing: seq<Event> := [];
    for i := 0 to |txnIDs|
      invariant Tally(success, failure, timeout, latencies, missing) == Visited(f, txnIDs[..i])
    {
      var id := txnIDs[i];
      assert txnIDs[..i + 1][..i] == txnIDs[..i];
      if id in f.existing {
        var ev := f.existing[id];
        match ev.outcome {
          case Success =>
            success := success + 1;
            if ev.latencyMs.Some? {
              latencies := latencies + [ev.latencyMs.value];
            }
          case Failure => failure := failure + 1;
          case Timeout => timeout := timeout + 1;
          case Unknown(_) => failure := failure + 1;
        }
      } else {
        var sentAt, outcome := f.cutoff, Failure;
        if id !in f.sentAt {
          failure := failure + 1;
        } else {
          sentAt := f.sentAt[id];
          if f.cutoff - sentAt >= CALLBACK_TIMEOUT {
            outcome := Timeout;
            timeout := timeout + 1;
          } else {
            failure := failure + 1;
          }
        }
        missing := missing + [Event(f.sessionID, f.runID, f.stage, id, sentAt, None, None, outcome, f.cutoff)];
      }
    }
    assert txnIDs[..|txnIDs|] == txnIDs;
    t := Tally(success, failure, timeout, latencies, missing);
  }

  /** The accumulated figures are counts over the final events, their latencies, and the missing events. */
  lemma {:induction false} VisitedMeaning(f: Input, order: seq<string>)
    requires forall i | 0 <= i < |order| :: order[i] in Population(f)
    ensures var t, evs := Visited(f, order), Final(f);
            && t.success == Count(order, IsSuccess(evs)) && t.failure == Count(order, IsFailure(evs))
            && t.timeout == Count(order, IsTimeout(evs))
            && t.latencies == Latencies(evs, order)
            && t.missing == MissingIn(f, order)
  {
    if order != [] {
      var pre, id := order[..|order| - 1], order[|order| - 1];
      VisitedMeaning(f, pre);
      assert id in Population(f);
      VisitMeaning(f, Visited(f, pre), id);
    }
  }

  /** What visiting one transaction adds. */
  lemma VisitMeaning(f: Input, t: Tally, id: string)
    requires id in Population(f)
    ensures var t', evs := t.Visit(f, id), Final(f);
            && t'.success == t.success + (if IsSuccess(evs)(id) then 1 else 0)
            && t'.failure == t.failure + (if IsFailure(evs)(id) then 1 else 0)
            && t'.timeout == t.timeout + (if IsTimeout(evs)(id) then 1 else 0)
            && t'.latencies == t.latencies + (if evs[id].outcome.Success? && evs[id].latencyMs.Some? then [evs[id].latencyMs.value] else [])
            && t'.missing == t.missing + (if id in f.existing then [] else [MissingEvent(f, id)])
  {
  }

  /** The missing events met along an order of transactions. */
  function MissingIn(f: Input, order: seq<string>): seq<Event> {
    if order == [] then []
    else
      var id := order[|order| - 1];
      MissingIn(f, order[..|order| - 1]) + (if id in f.existing then [] else [MissingEvent(f, id)])
  }

  /** The store with the missing events of some transactions inserted where nothing was. */
  function Absorb(s: Store, f: Input, ids: set<string>): Store {
    s + map id | id in ids && Key(f.runID, f.stage, id) !in s :: Key(f.runID, f.stage, id) := MissingEvent(f, id)
  }

  lemma AbsorbOne(s: Store, f: Input, ids: set<string>, id: string)
    ensures Absorb(s, f, ids + {id}) == Upsert(Absorb(s, f, ids), MissingEvent(f, id))
  {
  }

  lemma AbsorbTwice(s: Store, f: Input, a: set<string>, b: set<string>)
    ensures Absorb(Absorb(s, f, a), f, b) == Absorb(s, f, a + b)
  {
  }

  /** One round of writes inserts the missing events it was allowed to. */
  lemma {:induction false} RoundAbsorbs(s: Store, f: Input, order: seq<string>, applied: set<string>)
    ensures UpsertAll(s, MissingIn(f, order), applied) == Absorb(s, f, Applied(f, order, applied))
  {
    if order == [] {
      assert Applied(f, order, applied) == {};
    } else {
      var m := |order| - 1;
      var id, pre := order[m], order[..m];
      RoundAbsorbs(s, f, pre, applied);
      assert order == pre + [id];
      AbsorbStep(s, f, pre, id, applied);
      if id !in f.existing {
        UpsertAllPush(s, MissingIn(f, pre), MissingEvent(f, id), applied);
      } else {
        assert MissingIn(f, order) == MissingIn(f, pre);
      }
    }
  }

  lemma UpsertAllPush(s: Store, es: seq<Event>, e: Event, applied: set<string>)
    ensures UpsertAll(s, es + [e], applied)
         == if e.txnID in applied then Upsert(UpsertAll(s, es, applied), e) else UpsertAll(s, es, applied)
  {
    assert (es + [e])[..|es|] == es;
  }

  lemma AbsorbStep(s: Store, f: Input, pre: seq<string>, id: string, applied: set<string>)
    ensures Absorb(s, f, Applied(f, pre + [id], applied))
         == if id !in f.existing && id in applied then Upsert(Absorb(s, f, Applied(f, pre, applied)), MissingEvent(f, id))
            else Absorb(s, f, Applied(f, pre, applied))
  {
    AppliedStep(f, pre, id, applied);
    if id !in f.existing && id in applied {
      AbsorbOne(s, f, Applied(f, pre, applied), id);
    } else {
      assert Applied(f, pre + [id], applied) == Applied(f, pre, applied);
    }
  }

  /** The missing transactions of a list whose writes the server applies. */
  function Applied(f: Input, order: seq<string>, applied: set<string>): set<string> {
    set id | id in order && id !in f.existing && id in applied
  }

  lemma AppliedStep(f: Input, pre: seq<string>, id: string, applied: set<string>)
    ensures Applied(f, pre + [id], applied)
         == Applied(f, pre, applied) + (if id !in f.existing && id in applied then {id} else {})
  {
  }

  lemma {:induction false} NoMissing(f: Input, order: seq<string>)
    requires MissingIn(f, order) == []
    ensures forall i | 0 <= i < |order| :: order[i] in f.existing
  {
    if order != [] {
      NoMissing(f, order[..|order| - 1]);
    }
  }

  method WriteMissing(store: MongoStore, f: Input, w: Writes, missing: seq<Event>, ghost order: seq<string>)
    requires f.existing == StageView(store.events, f.runID, f.stage)
    requires Lists(order, Population(f)) && missing == MissingIn(f, order)
    modifies store
    ensures store.events == Absorb(old(store.events), f, w.Reached(Missing(f)))
  {
    ghost var before := store.events;
    if w.bulkOk {
      store.UpsertRunLatencyEventsBulk(missing, Population(f));
      RoundAbsorbs(before, f, order, Population(f));
      assert Applied(f, order, Population(f)) == w.Reached(Missing(f));
    } else {
      store.UpsertRunLatencyEventsBulk(missing, w.bulkApplied);
      RoundAbsorbs(before, f, order, w.bulkApplied);
      UpsertOneByOne(store, missing, w.singleOk);
      RoundAbsorbs(Absorb(before, f, Applied(f, order, w.bulkApplied)), f, order, w.singleOk);
      TwoRounds(before, f, w, order);
    }
  }

  method UpsertOneByOne(store: MongoStore, missing: seq<Event>, singleOk: set<string>)
    modifies store
    ensures store.events == UpsertAll(old(store.events), missing, singleOk)
  {
    for i := 0 to |missing|
      invariant store.events == UpsertAll(old(store.events), missing[..i], singleOk)
    {
      store.UpsertRunLatencyEvent(missing[i], missing[i].txnID in singleOk);
      assert missing[..i + 1][..i] == missing[..i];
    }
    assert missing[..|missing|] == missing;
  }

  lemma TwoRounds(s: Store, f: Input, w: Writes, order: seq<string>)
    requires Lists(order, Population(f)) && !w.bulkOk
    ensures Absorb(Absorb(s, f, Applied(f, order, w.bulkApplied)), f, Applied(f, order, w.singleOk))
         == Absorb(s, f, w.Reached(Missing(f)))
  {
    var a, b := Applied(f, order, w.bulkApplied), Applied(f, order, w.singleOk);
    AbsorbTwice(s, f, a, b);
    assert a + b == w.Reached(Missing(f));
  }

  // ---------------------------------------------------------------- what the summary means

  lemma ListsSize(order: seq<string>, ids: set<string>)
    requires Lists(order, ids)
    ensures |order| == |ids|
  {
    if order == [] {
      assert ids == {};
    } else {
      var m := |order| - 1;
      assert order == order[..m] + [order[m]];
      ListsSize(order[..m], ids - {order[m]});
    }
  }

  /** Total is the size of the population, and every transaction is a success, a failure or a timeout. */
  lemma {:induction false} Conservation(evs: map<string, Event>, order: seq<string>, cutoff: int)
    requires Lists(order, evs.Keys)
    ensures var m := SummaryOf(evs, order, cutoff);
            m.total == |evs| == m.success + m.failure + m.timeout
  {
    ListsSize(order, evs.Keys);
    ThreeWays(evs, order);
  }

  lemma {:induction false} ThreeWays(evs: map<string, Event>, order: seq<string>)
    requires forall id | id in order :: id in evs
    ensures Count(order, IsSuccess(evs)) + Count(order, IsFailure(evs)) + Count(order, IsTimeout(evs)) == |order|
  {
    if order != [] {
      var m := |order| - 1;
      assert order == order[..m] + [order[m]];
      ThreeWays(evs, order[..m]);
    }
  }

  /** A transaction nobody called back for becomes a timeout exactly when a callback arriving at the cutoff would be
      one: when it was sent thirty seconds before or earlier. Otherwise, or with no sent time, it is a failure. */
  lemma MissingDrawsTheSameLine(f: Input, id: string, outcome: Outcome)
    requires outcome.Success? || outcome.Failure?
    ensures var e := MissingEvent(f, id);
            var sentAt := if id in f.sentAt then Some(f.sentAt[id]) else None;
            && (e.outcome.Timeout? <==> Classify(f.sessionID, f.runID, f.stage, id, f.cutoff, sentAt, outcome).outcome.Timeout?)
            && (e.outcome.Timeout? <==> id in f.sentAt && f.cutoff - f.sentAt[id] >= 30000000000)
            && (!e.outcome.Timeout? ==> e.outcome.Failure?)
            && KeyOf(e) == Key(f.runID, f.stage, id) && e.sessionID == f.sessionID && e.recordedAt == f.cutoff
            && e.sentAt == (if id in f.sentAt then f.sentAt[id] else f.cutoff) && e.receivedAt.None? && e.latencyMs.None?
  {
    if id in f.sentAt {
      ClassifySound(f.sessionID, f.runID, f.stage, id, f.cutoff, Some(f.sentAt[id]), outcome);
    } else {
      ClassifySound(f.sessionID, f.runID, f.stage, id, f.cutoff, None, outcome);
    }
  }

  /** Counting along a listing is measuring the set of those counted. */
  lemma {:induction false} CountIsSize(order: seq<string>, ids: set<string>, p: string -> bool, a: set<string>)
    requires Lists(order, ids) && a <= ids
    requires forall id :: id in ids ==> (id in a <==> p(id))
    ensures Count(order, p) == |a|
  {
    if order == [] {
      assert ids == {};
    } else {
      var m := |order| - 1;
      var x := order[m];
      assert order == order[..m] + [x];
      CountIsSize(order[..m], ids - {x}, p, a - {x});
      assert x in a ==> a == (a - {x}) + {x};
    }
  }

  /** Transactions of the population with a stored event. */
  function Stored(f: Input): set<string> {
    set id | id in f.existing && id != ""
  }

  /** Missing transactions sent thirty seconds before the cutoff or earlier. */
  function LongGone(f: Input): set<string> {
    set id | id in Missing(f) && id in f.sentAt && f.cutoff - f.sentAt[id] >= 30000000000
  }

  lemma CountTwoSets(order: seq<string>, ids: set<string>, p: string -> bool, a: set<string>, b: set<string>)
    requires Lists(order, ids) && a !! b
    requires forall id :: (id in ids && p(id)) <==> id in a || id in b
    ensures Count(order, p) == |a| + |b|
  {
    CountIsSize(order, ids, p, a + b);
  }

  /** What the three counts of a summary count: stored events by their outcome, unknown ones as failures, and missing
      transactions as timeouts when they were sent long enough before the cutoff, as failures otherwise. */
  lemma CountsExactly(f: Input, order: seq<string>)
    requires Lists(order, Population(f)) && "" !in f.existing
    ensures var m := SummaryOf(Final(f), order, f.cutoff);
            && m.success == |set id | id in Stored(f) && f.existing[id].outcome.Success?|
            && m.timeout == |set id | id in Stored(f) && f.existing[id].outcome.Timeout?| + |LongGone(f)|
            && m.failure == |StoredFailures(f)| + |Missing(f) - LongGone(f)|
            && m.total == |Population(f)| && m.cutoff == f.cutoff
  {
    ListsSize(order, Population(f));
    SuccessesExactly(f, order);
    TimeoutsExactly(f, order);
    FailuresExactly(f, order);
  }

  /** The sample behind the averages and percentiles: each latency as often as stored successes have it. */
  lemma SampleExactly(f: Input, order: seq<string>, v: int)
    requires Lists(order, Population(f)) && "" !in f.existing
    ensures SummaryOf(Final(f), order, f.cutoff).stats == Percentiles.Summarize(Latencies(Final(f), order))
    ensures multiset(Latencies(Final(f), order))[v] == |LatencyHolders(f, v)|
  {
    LatencyCount(Final(f), order, v);
    CountIsSize(order, Population(f), HasLatency(Final(f), v), LatencyHolders(f, v));
  }

  /** The stored successes with a given latency. */
  function LatencyHolders(f: Input, v: int): set<string> {
    set id | id in Stored(f) && f.existing[id].outcome.Success? && f.existing[id].latencyMs == Some(v)
  }

  lemma SuccessesExactly(f: Input, order: seq<string>)
    requires Lists(order, Population(f)) && "" !in f.existing
    ensures Count(order, IsSuccess(Final(f))) == |set id | id in Stored(f) && f.existing[id].outcome.Success?|
  {
    CountIsSize(order, Population(f), IsSuccess(Final(f)), set id | id in Stored(f) && f.existing[id].outcome.Success?);
  }

  lemma TimeoutsExactly(f: Input, order: seq<string>)
    requires Lists(order, Population(f)) && "" !in f.existing
    ensures Count(order, IsTimeout(Final(f))) == |set id | id in Stored(f) && f.existing[id].outcome.Timeout?| + |LongGone(f)|
  {
    var stored := set id | id in Stored(f) && f.existing[id].outcome.Timeout?;
    forall id ensures (id in Population(f) && IsTimeout(Final(f))(id)) <==> id in stored || id in LongGone(f) {
      FinalOutcome(f, id);
    }
    CountTwoSets(order, Population(f), IsTimeout(Final(f)), stored, LongGone(f));
  }

  function StoredFailures(f: Input): set<string> {
    set id | id in Stored(f) && (f.existing[id].outcome.Failure? || f.existing[id].outcome.Unknown?)
  }

  lemma FailureSplit(f: Input, id: string)
    requires "" !in f.existing
    ensures (id in Population(f) && IsFailure(Final(f))(id)) <==> id in StoredFailures(f) || id in Missing(f) - LongGone(f)
  {
    FinalOutcome(f, id);
    if id in Stored(f) {
      assert Final(f)[id].outcome == f.existing[id].outcome;
    }
  }

  lemma FailuresExactly(f: Input, order: seq<string>)
    requires Lists(order, Population(f)) && "" !in f.existing
    ensures Count(order, IsFailure(Final(f))) == |StoredFailures(f)| + |Missing(f) - LongGone(f)|
  {
    forall id ensures (id in Population(f) && IsFailure(Final(f))(id)) <==> id in StoredFailures(f) || id in Missing(f) - LongGone(f) {
      FailureSplit(f, id);
    }
    CountTwoSets(order, Population(f), IsFailure(Final(f)), StoredFailures(f), Missing(f) - LongGone(f));
  }

  /** The summarized outcome of a transaction: the stored one, or that of its absence. */
  lemma FinalOutcome(f: Input, id: string)
    requires "" !in f.existing
    ensures id in Population(f) <==> id in Stored(f) || id in Missing(f)
    ensures id in Final(f) <==> id in Population(f)
    ensures id in Stored(f) ==> id !in Missing(f) && id in f.existing && Final(f)[id] == f.existing[id]
    ensures id in Missing(f) ==> Final(f)[id].outcome == if id in LongGone(f) then Timeout else Failure
    ensures id in LongGone(f) ==> id in Missing(f)
  {
  }

  lemma ListsPermuted(a: seq<string>, b: seq<string>, ids: set<string>)
    requires Lists(a, ids) && Lists(b, ids)
    ensures multiset(a) == multiset(b)
  {
    forall id ensures multiset(a)[id] == multiset(b)[id] {
      OnceEach(a, ids, id);
      OnceEach(b, ids, id);
    }
  }

  lemma {:induction false} OnceEach(a: seq<string>, ids: set<string>, id: string)
    requires Lists(a, ids)
    ensures multiset(a)[id] == if id in ids then 1 else 0
  {
    if a != [] {
      var m := |a| - 1;
      assert a == a[..m] + [a[m]];
      OnceEach(a[..m], ids - {a[m]}, id);
    }
  }

  function HasLatency(evs: map<string, Event>, v: int): string -> bool {
    (id: string) => id in evs && evs[id].outcome.Success? && evs[id].latencyMs == Some(v)
  }

  lemma {:induction false} LatencyCount(evs: map<string, Event>, order: seq<string>, v: int)
    ensures multiset(Latencies(evs, order))[v] == Count(order, HasLatency(evs, v))
  {
    if order != [] {
      LatencyCount(evs, order[..|order| - 1], v);
    }
  }

  lemma LatenciesPermuted(evs: map<string, Event>, a: seq<string>, b: seq<string>)
    requires multiset(a) == multiset(b)
    ensures multiset(Latencies(evs, a)) == multiset(Latencies(evs, b))
  {
    forall v ensures multiset(Latencies(evs, a))[v] == multiset(Latencies(evs, b))[v] {
      LatencyCount(evs, a, v);
      LatencyCount(evs, b, v);
      CountPermuted(a, b, HasLatency(evs, v));
    }
  }

  /** The order in which the transactions were visited does not show in the summary. */
  lemma OrderIrrelevant(evs: map<string, Event>, a: seq<string>, b: seq<string>, cutoff: int)
    requires Lists(a, evs.Keys) && Lists(b, evs.Keys)
    ensures SummaryOf(evs, a, cutoff) == SummaryOf(evs, b, cutoff)
  {
    ListsPermuted(a, b, evs.Keys);
    ListsSize(a, evs.Keys);
    ListsSize(b, evs.Keys);
    CountPermuted(a, b, IsSuccess(evs));
    CountPermuted(a, b, IsFailure(evs));
    CountPermuted(a, b, IsTimeout(evs));
    LatenciesPermuted(evs, a, b);
    Percentiles.SummaryIgnoresOrder(Latencies(evs, a), Latencies(evs, b));
  }

  /** The stored events of the stage after finalizing, when `reached` of the missing ones were written. */
  function ViewAfter(s: Store, f: Input, reached: set<string>): map<string, Event> {
    StageView(Absorb(s, f, reached), f.runID, f.stage)
  }

  /** The events of `f` with the missing ones of some transactions added. */
  ghost predicate Completed(f: Input, reached: set<string>, view: map<string, Event>) {
    && view.Keys == f.existing.Keys + reached
    && (forall id | id in f.existing :: view[id] == f.existing[id])
    && (forall id | id in reached :: view[id] == MissingEvent(f, id))
  }

  lemma ViewAfterIs(s: Store, f: Input, reached: set<string>)
    requires f.existing == StageView(s, f.runID, f.stage) && reached <= Missing(f)
    ensures Completed(f, reached, ViewAfter(s, f, reached))
  {
    assert forall id :: id in f.existing <==> Key(f.runID, f.stage, id) in s;
  }

  lemma CompletedIsFinal(f: Input, view: map<string, Event>)
    requires "" !in f.existing && Completed(f, Missing(f), view)
    ensures view == Final(f)
  {
    assert Final(f).Keys == f.existing.Keys + Missing(f);
  }

  lemma PartlyCompletedIsSmaller(f: Input, reached: set<string>, view: map<string, Event>)
    requires "" !in f.existing && Completed(f, reached, view) && reached < Missing(f)
    ensures |view| < |Final(f)|
  {
    assert Final(f).Keys == f.existing.Keys + Missing(f);
    ProperSubsetSize(f.existing.Keys, reached, Missing(f));
  }

  /** The stored events agree with the summarized ones, in content and in number, exactly when every missing
      event was written, by the bulk write or by the one-by-one fallback. */
  lemma StoreAgrees(s: Store, f: Input, w: Writes)
    requires f.existing == StageView(s, f.runID, f.stage) && "" !in f.existing
    ensures ViewAfter(s, f, w.Reached(Missing(f))) == Final(f) <==> w.Reached(Missing(f)) == Missing(f)
    ensures |ViewAfter(s, f, w.Reached(Missing(f)))| == |Final(f)| <==> w.Reached(Missing(f)) == Missing(f)
  {
    var reached := w.Reached(Missing(f));
    ViewAfterIs(s, f, reached);
    if reached == Missing(f) {
      CompletedIsFinal(f, ViewAfter(s, f, reached));
    } else {
      PartlyCompletedIsSmaller(f, reached, ViewAfter(s, f, reached));
    }
  }

  lemma ProperSubsetSize<T>(base: set<T>, part: set<T>, whole: set<T>)
    requires part < whole && base !! whole
    ensures |base + part| < |base + whole|
  {
    assert base + whole == (base + part) + (whole - part);
    assert whole - part != {};
  }

  /** Finalizing again, at any later moment, over the store the first finalization left: nothing is missing,
      and counts, percentiles and average are what they were. */
  lemma SecondFinalization(s: Store, f: Input, w: Writes, cutoff: int, order1: seq<string>, order2: seq<string>)
    requires f.existing == StageView(s, f.runID, f.stage) && "" !in f.existing
    requires w.Reached(Missing(f)) == Missing(f)
    requires Lists(order1, Population(f))
    requires var g := f.(cutoff := cutoff, existing := ViewAfter(s, f, Missing(f))); Lists(order2, Population(g))
    ensures var g := f.(cutoff := cutoff, existing := ViewAfter(s, f, Missing(f)));
            && Missing(g) == {}
            && SummaryOf(Final(g), order2, g.cutoff) == SummaryOf(Final(f), order1, f.cutoff).(cutoff := cutoff)
  {
    var g := f.(cutoff := cutoff, existing := ViewAfter(s, f, Missing(f)));
    ViewAfterIs(s, f, Missing(f));
    CompletedIsFinal(f, g.existing);
    assert g.existing == Final(f);
    PopulationStable(f, g);
    OrderIrrelevant(Final(f), order1, order2, cutoff);
  }

  lemma PopulationStable(f: Input, g: Input)
    requires g.requests == f.requests && g.existing == Final(f) && "" !in f.existing
    ensures Population(g) == Population(f) == Final(f).Keys && Missing(g) == {} && Final(g) == Final(f)
  {
  }

  /** When the stored events are sound, every figure of the summary stays below the timeout threshold. */
  lemma SummaryBelowThreshold(f: Input, order: seq<string>)
    requires forall id | id in f.existing :: Sound(f.existing[id])
    ensures var m := SummaryOf(Final(f), order, f.cutoff).stats;
            && m.p90 < TIMEOUT_THRESHOLD_MS && m.p95 < TIMEOUT_THRESHOLD_MS && m.p99 < TIMEOUT_THRESHOLD_MS
            && m.avgHundredths < 100 * TIMEOUT_THRESHOLD_MS
  {
    LatenciesSound(Final(f), order);
    Percentiles.SummaryBelow(Latencies(Final(f), order), TIMEOUT_THRESHOLD_MS);
  }

  lemma {:induction false} LatenciesSound(evs: map<string, Event>, order: seq<string>)
    requires forall id | id in evs :: Sound(evs[id])
    ensures forall i | 0 <= i < |Latencies(evs, order)| :: Latencies(evs, order)[i] < TIMEOUT_THRESHOLD_MS
  {
    if order != [] {
      LatenciesSound(evs, order[..|order| - 1]);
    }
  }
}
