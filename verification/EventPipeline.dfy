/** The life of latency events between the callback handlers, the bounded queue, its workers, the synchronous
    fallback, the finalizer and the store, interleaved in every possible way. */
module EventPipeline {
  import opened LatencyEvents
  import Finalization
  import opened Wrappers

  /** Where an event is while it is neither queued nor stored. */
  datatype Place = Arriving | SyncPath | Hand | Finalizer

  datatype Flight = Flight(event: Event, place: Place)

  datatype Route = Route(runID: string, sessionID: string)

  /** The queue's capacity, and the transactions of the select batch of each run. */
  datatype Config = Config(capacity: nat, batch: map<string, seq<string>>)

  /** `links` routes transactions to runs, `stamps` holds the times of requests by the stage they pair with.
      `selected`, `created` and `lostKeys` record history: transactions linked by a run's select stage, every
      event ever made, and the keys of writes the store refused. */
  datatype State = State(
    queue: seq<Event>, flights: multiset<Flight>, store: Store,
    links: map<string, Route>, stamps: map<Key, int>,
    selected: set<(string, string)>, created: set<Event>, lostKeys: set<Key>)

  const INIT := State([], multiset{}, map[], map[], map[], {}, {}, {})

  /** The pseudo-run a discovery links its search transaction to; no run has this id. */
  const DISCOVERY := "discovery"

  datatype Action =
    | Link(runID: string, sessionID: string, txnID: string)
    | Discover(sessionID: string, txnID: string)
    | LinkExpires(txnID: string)
    | Stamp(runID: string, stage: Stage, txnID: string, at: int)
    | Callback(stage: Stage, txnID: string, receivedAt: int, outcome: Outcome)
    | Offer(event: Event)
    | Take
    | Write(flight: Flight, ok: bool)
    | Finalize(sessionID: string, runID: string, stage: Stage, cutoff: int, requests: seq<string>)

  ghost predicate Enabled(c: Config, s: State, a: Action) {
    match a
    case Link(run, _, txn) => run in c.batch && txn in c.batch[run] && txn != ""
    case Discover(_, txn) => txn != ""
    case LinkExpires(txn) => txn in s.links
    case Stamp(run, stage, txn, _) => txn != "" && (stage.OnSelect? ==> (run, txn) in s.selected)
    case Callback(_, txn, _, outcome) => txn != "" && txn in s.links && (outcome.Success? || outcome.Failure?)
    case Offer(e) => Flight(e, Arriving) in s.flights
    case Take => s.queue != []
    case Write(f, _) => f in s.flights && !f.place.Arriving?
    case Finalize(_, run, stage, _, requests) => forall id :: id in requests <==> Key(run, stage, id) in s.stamps
  }

  /** What the finalizer of one stage reads at this moment. */
  function InputAt(s: State, sessionID: string, runID: string, stage: Stage, cutoff: int, requests: seq<string>): Finalization.Input {
    Finalization.Input(sessionID, runID, stage, cutoff, requests,
      map k | k in s.stamps && k.runID == runID && k.stage == stage :: k.txnID := s.stamps[k],
      StageView(s.store, runID, stage))
  }

  function Step(c: Config, s: State, a: Action): State {
    match a
    case Link(run, session, txn) =>
      s.(links := s.links[txn := Route(run, session)], selected := s.selected + {(run, txn)})
    case Discover(session, txn) => s.(links := s.links[txn := Route(DISCOVERY, session)])
    case LinkExpires(txn) => s.(links := s.links - {txn})
    case Stamp(run, stage, txn, at) => s.(stamps := s.stamps[Key(run, stage, txn) := at])
    case Callback(stage, txn, receivedAt, outcome) =>
      if txn !in s.links then s
      else
        var r := s.links[txn];
        var k := Key(r.runID, stage, txn);
        var e := Classify(r.sessionID, r.runID, stage, txn, receivedAt, if k in s.stamps then Some(s.stamps[k]) else None, outcome);
        s.(created := s.created + {e}, flights := s.flights + multiset{Flight(e, Arriving)})
    case Offer(e) =>
      var rest := s.flights - multiset{Flight(e, Arriving)};
      if |s.queue| < c.capacity then s.(queue := s.queue + [e], flights := rest)
      else s.(flights := rest + multiset{Flight(e, SyncPath)})
    case Take =>
      if s.queue == [] then s
      else s.(queue := s.queue[1..], flights := s.flights + multiset{Flight(s.queue[0], Hand)})
    case Write(f, ok) =>
      var rest := s.flights - multiset{f};
      if ok then s.(flights := rest, store := Upsert(s.store, f.event))
      else s.(flights := rest, lostKeys := s.lostKeys + {KeyOf(f.event)})
    case Finalize(session, run, stage, cutoff, requests) =>
      var i := InputAt(s, session, run, stage, cutoff, requests);
      var made := set id | id in Finalization.Missing(i) :: Finalization.MissingEvent(i, id);
      s.(created := s.created + made, flights := s.flights + multiset(set e | e in made :: Flight(e, Finalizer)))
  }

  // ---------------------------------------------------------------- the invariant

  /** Events know their transaction, are sound, and belong to a run that selected their transaction. */
  ghost predicate Proper(s: State, e: Event) {
    && e.txnID != ""
    && Sound(e)
    && (e.stage.OnSelect? && e.runID != DISCOVERY ==> (e.runID, e.txnID) in s.selected)
  }

  ghost predicate Queued(s: State, k: Key) {
    exists i :: 0 <= i < |s.queue| && KeyOf(s.queue[i]) == k
  }

  ghost predicate InFlight(s: State, k: Key) {
    exists f :: f in s.flights && KeyOf(f.event) == k
  }

  /** An event with this key is stored, queued, in somebody's hands, or its write was refused. */
  ghost predicate Located(s: State, k: Key) {
    k in s.store || Queued(s, k) || InFlight(s, k) || k in s.lostKeys
  }

  ghost predicate Routed(c: Config, s: State) {
    && (forall p | p in s.selected :: p.0 in c.batch && p.1 in c.batch[p.0] && p.1 != "")
    && (forall t | t in s.links && s.links[t].runID != DISCOVERY :: (s.links[t].runID, t) in s.selected)
    && (forall k | k in s.stamps :: k.txnID != "" && (k.stage.OnSelect? ==> (k.runID, k.txnID) in s.selected))
  }

  ghost predicate AllCreated(s: State) {
    && (forall i | 0 <= i < |s.queue| :: s.queue[i] in s.created)
    && (forall f | f in s.flights :: f.event in s.created)
    && (forall k | k in s.store :: s.store[k] in s.created && KeyOf(s.store[k]) == k)
  }

  ghost predicate Inv(c: Config, s: State) {
    && |s.queue| <= c.capacity
    && Routed(c, s)
    && AllCreated(s)
    && (forall e | e in s.created :: Proper(s, e))
    && (forall e | e in s.created :: Located(s, KeyOf(e)))
  }

  lemma StepKeepsRoutes(c: Config, s: State, a: Action)
    requires Routed(c, s) && Enabled(c, s, a)
    ensures Routed(c, Step(c, s, a)) && s.selected <= Step(c, s, a).selected
  {
  }

  lemma StepKeepsCreated(c: Config, s: State, a: Action)
    requires AllCreated(s) && Enabled(c, s, a)
    ensures AllCreated(Step(c, s, a)) && s.created <= Step(c, s, a).created
  {
    match a
    case Finalize(_, _, _, _, _) => FinalizeKeepsCreated(c, s, a);
    case Write(_, _) => WriteKeepsCreated(c, s, a);
    case Offer(e) => OfferKeepsCreated(c, s, a);
    case Take =>
      var s' := Step(c, s, a);
      forall i | 0 <= i < |s'.queue| ensures s'.queue[i] in s'.created {
        assert s'.queue[i] == s.queue[i + 1];
      }
      forall f | f in s'.flights ensures f.event in s'.created {
        assert f in s.flights || f == Flight(s.queue[0], Hand);
      }
    case _ =>
  }

  lemma FinalizeKeepsCreated(c: Config, s: State, a: Action)
    requires AllCreated(s) && a.Finalize?
    ensures AllCreated(Step(c, s, a))
  {
    var s' := Step(c, s, a);
    forall f | f in s'.flights ensures f.event in s'.created {
      assert f in s.flights || f.event in s'.created;
    }
  }

  lemma WriteKeepsCreated(c: Config, s: State, a: Action)
    requires AllCreated(s) && a.Write? && a.flight in s.flights
    ensures AllCreated(Step(c, s, a))
  {
    var s' := Step(c, s, a);
    forall f | f in s'.flights ensures f.event in s'.created {
      assert f in s.flights;
    }
  }

  lemma OfferKeepsCreated(c: Config, s: State, a: Action)
    requires AllCreated(s) && a.Offer? && Flight(a.event, Arriving) in s.flights
    ensures AllCreated(Step(c, s, a))
  {
    var rest := s.flights - multiset{Flight(a.event, Arriving)};
    assert a.event in s.created;
    if |s.queue| < c.capacity {
      MovedCreated(s, s.queue + [a.event], rest);
    } else {
      MovedCreated(s, s.queue, rest + multiset{Flight(a.event, SyncPath)});
    }
  }

  lemma MovedCreated(s: State, queue: seq<Event>, flights: multiset<Flight>)
    requires AllCreated(s)
    requires forall e | e in queue :: e in s.created
    requires forall f | f in flights :: f.event in s.created
    ensures AllCreated(s.(queue := queue, flights := flights))
  {
  }

  lemma MissingProper(c: Config, s: State, a: Action, id: string)
    requires Inv(c, s) && a.Finalize? && Enabled(c, s, a)
    requires id in Finalization.Missing(InputAt(s, a.sessionID, a.runID, a.stage, a.cutoff, a.requests))
    ensures Proper(s, Finalization.MissingEvent(InputAt(s, a.sessionID, a.runID, a.stage, a.cutoff, a.requests), id))
  {
    assert id in a.requests;
    assert Key(a.runID, a.stage, id) in s.stamps;
  }

  lemma StepKeepsProper(c: Config, s: State, a: Action)
    requires Inv(c, s) && Enabled(c, s, a)
    ensures forall e | e in Step(c, s, a).created :: Proper(Step(c, s, a), e)
  {
    var s' := Step(c, s, a);
    StepKeepsRoutes(c, s, a);
    forall e | e in s'.created ensures Proper(s', e) {
      if e in s.created {
        assert Proper(s, e);
      } else if a.Finalize? {
        var i := InputAt(s, a.sessionID, a.runID, a.stage, a.cutoff, a.requests);
        var id :| id in Finalization.Missing(i) && e == Finalization.MissingEvent(i, id);
        MissingProper(c, s, a, id);
      } else {
        var r, k := s.links[a.txnID], Key(s.links[a.txnID].runID, a.stage, a.txnID);
        ClassifySound(r.sessionID, r.runID, a.stage, a.txnID, a.receivedAt,
                      if k in s.stamps then Some(s.stamps[k]) else None, a.outcome);
      }
    }
  }

  lemma OthersStay(c: Config, s: State, a: Action, f: Flight)
    requires f in s.flights
    requires !(a.Offer? && f == Flight(a.event, Arriving)) && !(a.Write? && f == a.flight)
    ensures f in Step(c, s, a).flights
  {
    match a
    case Offer(e) => OthersRemain(s.flights, f, Flight(e, Arriving), Flight(e, SyncPath));
    case Write(g, _) => OthersRemain(s.flights, f, g, g);
    case Finalize(_, _, _, _, _) => FinalizeKeepsFlights(c, s, a, f);
    case _ =>
  }

  lemma OthersRemain(fs: multiset<Flight>, f: Flight, g: Flight, h: Flight)
    requires f in fs && f != g
    ensures f in fs - multiset{g} && f in fs - multiset{g} + multiset{h}
  {
  }

  lemma FinalizeKeepsFlights(c: Config, s: State, a: Action, f: Flight)
    requires f in s.flights && a.Finalize?
    ensures f in Step(c, s, a).flights
  {
  }

  lemma QueueMoves(c: Config, s: State, a: Action, i: nat)
    requires i < |s.queue|
    ensures var q := Step(c, s, a).queue;
            if !a.Take? then i < |q| && q[i] == s.queue[i]
            else if i == 0 then Flight(s.queue[0], Hand) in Step(c, s, a).flights
            else i - 1 < |q| && q[i - 1] == s.queue[i]
  {
    match a
    case Offer(_) =>
    case Take =>
    case _ =>
  }

  /** An event in somebody's hands stays there, or goes into the queue or the store, or is refused. */
  lemma FlightStaysLocated(c: Config, s: State, a: Action, f: Flight)
    requires Enabled(c, s, a) && f in s.flights
    ensures Located(Step(c, s, a), KeyOf(f.event))
  {
    match a
    case Offer(e) =>
      if f != Flight(e, Arriving) {
        OthersStay(c, s, a, f);
      } else if |s.queue| < c.capacity {
        assert Step(c, s, a).queue[|s.queue|] == e;
      } else {
        assert Flight(e, SyncPath) in Step(c, s, a).flights;
      }
    case Write(g, _) =>
      if f != g {
        OthersStay(c, s, a, f);
      }
    case _ => OthersStay(c, s, a, f);
  }

  lemma QueueStaysLocated(c: Config, s: State, a: Action, i: nat)
    requires i < |s.queue|
    ensures Located(Step(c, s, a), KeyOf(s.queue[i]))
  {
    QueueMoves(c, s, a, i);
  }

  lemma StepKeepsLocated(c: Config, s: State, a: Action, k: Key)
    requires Enabled(c, s, a) && Located(s, k)
    ensures Located(Step(c, s, a), k)
  {
    if InFlight(s, k) {
      var f :| f in s.flights && KeyOf(f.event) == k;
      FlightStaysLocated(c, s, a, f);
    } else if Queued(s, k) {
      var i :| 0 <= i < |s.queue| && KeyOf(s.queue[i]) == k;
      QueueStaysLocated(c, s, a, i);
    }
  }

  lemma NewLocated(c: Config, s: State, a: Action, e: Event)
    requires Enabled(c, s, a) && e in Step(c, s, a).created && e !in s.created
    ensures Located(Step(c, s, a), KeyOf(e))
  {
    var s' := Step(c, s, a);
    if a.Callback? {
      assert Flight(e, Arriving) in s'.flights;
    } else {
      assert Flight(e, Finalizer) in s'.flights;
    }
  }

  lemma StepKeepsInv(c: Config, s: State, a: Action)
    requires Inv(c, s) && Enabled(c, s, a)
    ensures Inv(c, Step(c, s, a))
  {
    var s' := Step(c, s, a);
    StepKeepsRoutes(c, s, a);
    StepKeepsCreated(c, s, a);
    StepKeepsProper(c, s, a);
    StepKeepsCapacity(c, s, a);
    forall e | e in s'.created ensures Located(s', KeyOf(e)) {
      CreatedLocated(c, s, a, e);
    }
  }

  lemma StepKeepsCapacity(c: Config, s: State, a: Action)
    requires |s.queue| <= c.capacity
    ensures |Step(c, s, a).queue| <= c.capacity
  {
  }

  lemma CreatedLocated(c: Config, s: State, a: Action, e: Event)
    requires Inv(c, s) && Enabled(c, s, a) && e in Step(c, s, a).created
    ensures Located(Step(c, s, a), KeyOf(e))
  {
    if e in s.created {
      StepKeepsLocated(c, s, a, KeyOf(e));
    } else {
      NewLocated(c, s, a, e);
    }
  }

  // ---------------------------------------------------------------- every schedule

  ghost function After(c: Config, s: State, acts: seq<Action>): State {
    if acts == [] then s
    else
      var t, a := After(c, s, acts[..|acts| - 1]), acts[|acts| - 1];
      if Enabled(c, t, a) then Step(c, t, a) else t
  }

  lemma {:induction false} Reachable(c: Config, acts: seq<Action>)
    ensures Inv(c, After(c, INIT, acts))
  {
    if acts != [] {
      Reachable(c, acts[..|acts| - 1]);
      var t, a := After(c, INIT, acts[..|acts| - 1]), acts[|acts| - 1];
      if Enabled(c, t, a) {
        StepKeepsInv(c, t, a);
      }
    }
  }

  /** Nothing is dropped: the queue stays within its capacity, and the key of every event ever made is in the
      queue, in a handler's, worker's or finalizer's hands, in the store, or its write was refused. */
  lemma KeepsEverything(c: Config, acts: seq<Action>)
    ensures var s := After(c, INIT, acts);
            && |s.queue| <= c.capacity
            && (forall e | e in s.created :: Located(s, KeyOf(e)))
            && (forall k | k in s.store :: s.store[k] in s.created && KeyOf(s.store[k]) == k)
  {
    Reachable(c, acts);
  }

  /** A stored event never changes again, whatever happens next. */
  lemma {:induction false} NeverRewrites(c: Config, s: State, acts: seq<Action>)
    ensures Extends(After(c, s, acts).store, s.store)
  {
    if acts != [] {
      NeverRewrites(c, s, acts[..|acts| - 1]);
    }
  }

  /** Once queue and hands are empty and no write was refused, the stored keys are exactly those of the events
      made: which keys are stored does not depend on the schedule. */
  lemma QuietStoreIsComplete(c: Config, acts: seq<Action>)
    requires var s := After(c, INIT, acts); s.queue == [] && s.flights == multiset{} && s.lostKeys == {}
    ensures var s := After(c, INIT, acts); s.store.Keys == set e | e in s.created :: KeyOf(e)
  {
    Reachable(c, acts);
    var s := After(c, INIT, acts);
    forall e | e in s.created ensures KeyOf(e) in s.store {
      assert Located(s, KeyOf(e));
    }
  }

  /** What the finalizer reads is fit for it: no event without a transaction, and every success below the threshold. */
  lemma FinalizerInputSound(c: Config, acts: seq<Action>, a: Action)
    requires a.Finalize?
    ensures var i := InputAt(After(c, INIT, acts), a.sessionID, a.runID, a.stage, a.cutoff, a.requests);
            "" !in i.existing && forall id | id in i.existing :: Sound(i.existing[id])
  {
    Reachable(c, acts);
    var s := After(c, INIT, acts);
    forall k | k in s.store ensures k.txnID != "" && Sound(s.store[k]) {
      assert Proper(s, s.store[k]);
    }
  }

  /** Every summary the finalizer can compute, at any moment of any schedule, stays below the timeout threshold. */
  lemma SummariesBelowThreshold(c: Config, acts: seq<Action>, a: Action, order: seq<string>)
    requires a.Finalize?
    ensures var i := InputAt(After(c, INIT, acts), a.sessionID, a.runID, a.stage, a.cutoff, a.requests);
            var m := Finalization.SummaryOf(Finalization.Final(i), order, a.cutoff).stats;
            && m.p90 < TIMEOUT_THRESHOLD_MS && m.p95 < TIMEOUT_THRESHOLD_MS && m.p99 < TIMEOUT_THRESHOLD_MS
            && m.avgHundredths < 100 * TIMEOUT_THRESHOLD_MS
  {
    FinalizerInputSound(c, acts, a);
    Finalization.SummaryBelowThreshold(InputAt(After(c, INIT, acts), a.sessionID, a.runID, a.stage, a.cutoff, a.requests), order);
  }

  /** The transactions of the on_select summary of a run are transactions of its own select batch. */
  lemma SelectPopulation(c: Config, acts: seq<Action>, a: Action)
    requires a.Finalize? && a.stage.OnSelect? && a.runID in c.batch && a.runID != DISCOVERY
    requires Enabled(c, After(c, INIT, acts), a)
    ensures var i := InputAt(After(c, INIT, acts), a.sessionID, a.runID, a.stage, a.cutoff, a.requests);
            && (forall id | id in Finalization.Population(i) :: id in c.batch[a.runID])
            && |Finalization.Population(i)| <= |c.batch[a.runID]|
  {
    Reachable(c, acts);
    var s := After(c, INIT, acts);
    var i := InputAt(s, a.sessionID, a.runID, a.stage, a.cutoff, a.requests);
    forall id | id in Finalization.Population(i) ensures id in c.batch[a.runID] {
      PopulationSelected(c, s, a, id);
    }
    SetWithinSeq(Finalization.Population(i), c.batch[a.runID]);
  }

  /** A transaction the finalizer counts for the select stage was sent by that stage. */
  lemma PopulationSelected(c: Config, s: State, a: Action, id: string)
    requires Inv(c, s) && a.Finalize? && a.stage.OnSelect? && a.runID in c.batch && a.runID != DISCOVERY && Enabled(c, s, a)
    requires id in Finalization.Population(InputAt(s, a.sessionID, a.runID, a.stage, a.cutoff, a.requests))
    ensures id in c.batch[a.runID]
  {
    var k := Key(a.runID, a.stage, id);
    if id in a.requests {
      assert k in s.stamps;
    } else {
      assert k in s.store;
      assert Proper(s, s.store[k]);
    }
    assert (a.runID, id) in s.selected;
  }

  lemma {:induction false} SetWithinSeq(ids: set<string>, s: seq<string>)
    requires forall id | id in ids :: id in s
    ensures |ids| <= |s|
  {
    if s == [] {
      assert ids == {};
    } else {
      var x := s[|s| - 1];
      assert s == s[..|s| - 1] + [x];
      SetWithinSeq(ids - {x}, s[..|s| - 1]);
      assert ids <= (ids - {x}) + {x};
    }
  }

  // ---------------------------------------------------------------- finalizing among callbacks

  /** A write that is the first to land under a key, made by a callback: the finalizer's events were never received. */
  ghost predicate LandsNow(c: Config, s: State, a: Action, k: Key) {
    && Enabled(c, s, a) && a.Write? && a.ok
    && k !in s.store && KeyOf(a.flight.event) == k && a.flight.event.receivedAt.Some?
  }

  /** Some callback's write is the first to land under a key, somewhere in a schedule. */
  ghost predicate Landed(c: Config, s: State, acts: seq<Action>, k: Key) {
    exists n :: LandsAt(c, s, acts, n, k)
  }

  ghost predicate LandsAt(c: Config, s: State, acts: seq<Action>, n: int, k: Key) {
    0 <= n < |acts| && LandsNow(c, After(c, s, acts[..n]), acts[n], k)
  }

  /** Events under way that were never received are those this finalization made. */
  ghost predicate OnlyOurs(s: State, i: Finalization.Input) {
    && (forall f | f in s.flights && f.event.receivedAt.None? && f.event.runID == i.runID && f.event.stage == i.stage ::
          f.event.txnID in Finalization.Missing(i) && f.event == Finalization.MissingEvent(i, f.event.txnID))
    && (forall e | e in s.queue && e.runID == i.runID && e.stage == i.stage :: e.receivedAt.Some?)
  }

  /** No other finalization of the stage. */
  ghost predicate Alone(acts: seq<Action>, i: Finalization.Input) {
    forall a | a in acts && a.Finalize? :: a.runID != i.runID || a.stage != i.stage
  }

  lemma {:induction false} InvStays(c: Config, s: State, acts: seq<Action>)
    requires Inv(c, s)
    ensures Inv(c, After(c, s, acts)) && s.created <= After(c, s, acts).created
  {
    if acts != [] {
      InvStays(c, s, acts[..|acts| - 1]);
      var t, a := After(c, s, acts[..|acts| - 1]), acts[|acts| - 1];
      if Enabled(c, t, a) {
        StepKeepsInv(c, t, a);
        StepKeepsCreated(c, t, a);
      }
    }
  }

  lemma StepKeepsOurs(c: Config, s: State, a: Action, i: Finalization.Input)
    requires OnlyOurs(s, i) && Enabled(c, s, a)
    requires a.Finalize? ==> a.runID != i.runID || a.stage != i.stage
    requires a.Offer? ==> a.event.runID == i.runID && a.event.stage == i.stage ==> a.event.receivedAt.Some?
    ensures OnlyOurs(Step(c, s, a), i)
  {
    var s' := Step(c, s, a);
    forall f | f in s'.flights && f.event.receivedAt.None? && f.event.runID == i.runID && f.event.stage == i.stage
      ensures f in s.flights
    {
      if f !in s.flights {
        NewFlight(c, s, a, f);
      }
    }
    QueueGrows(c, s, a);
  }

  lemma QueueGrows(c: Config, s: State, a: Action)
    ensures forall e | e in Step(c, s, a).queue :: e in s.queue || (a.Offer? && e == a.event)
  {
    match a
    case Offer(_) =>
    case Take =>
    case _ =>
  }

  /** Where a flight that was not there comes from. */
  lemma NewFlight(c: Config, s: State, a: Action, f: Flight)
    requires Enabled(c, s, a) && f in Step(c, s, a).flights && f !in s.flights
    ensures (a.Callback? && f.event.receivedAt.Some?) || (a.Offer? && f.event == a.event) || (a.Take? && f.event in s.queue)
            || (a.Finalize? && f.event.runID == a.runID && f.event.stage == a.stage)
    ensures f.place.Arriving? ==> a.Callback?
  {
    match a
    case Offer(e) => CameFrom(s.flights, f, Flight(e, Arriving), Flight(e, SyncPath));
    case Write(g, _) => CameFrom(s.flights, f, g, g);
    case Finalize(_, _, _, _, _) => FinalizerFlights(c, s, a, f);
    case _ =>
  }

  lemma CameFrom(fs: multiset<Flight>, f: Flight, g: Flight, h: Flight)
    ensures f in fs - multiset{g} ==> f in fs
    ensures f in fs - multiset{g} + multiset{h} ==> f in fs || f == h
  {
  }

  lemma FinalizerFlights(c: Config, s: State, a: Action, f: Flight)
    requires a.Finalize? && f in Step(c, s, a).flights && f !in s.flights
    ensures f.place.Finalizer? && f.event.runID == a.runID && f.event.stage == a.stage
  {
  }

  /** Arriving events were received: only callbacks make them. */
  ghost predicate ArrivalsReceived(s: State) {
    forall f | f in s.flights && f.place.Arriving? :: f.event.receivedAt.Some?
  }

  lemma {:induction false} ArrivalsStay(c: Config, s: State, acts: seq<Action>)
    requires ArrivalsReceived(s)
    ensures ArrivalsReceived(After(c, s, acts))
  {
    if acts != [] {
      ArrivalsStay(c, s, acts[..|acts| - 1]);
      var t, a := After(c, s, acts[..|acts| - 1]), acts[|acts| - 1];
      if Enabled(c, t, a) {
        forall f | f in Step(c, t, a).flights && f.place.Arriving? ensures f.event.receivedAt.Some? {
          if f !in t.flights {
            NewArrival(c, t, a, f);
          }
        }
      }
    }
  }

  lemma NewArrival(c: Config, s: State, a: Action, f: Flight)
    requires Enabled(c, s, a) && f in Step(c, s, a).flights && f !in s.flights && f.place.Arriving?
    ensures f.event.receivedAt.Some?
  {
    NewFlight(c, s, a, f);
  }

  lemma {:induction false} OursStay(c: Config, s: State, acts: seq<Action>, i: Finalization.Input)
    requires OnlyOurs(s, i) && ArrivalsReceived(s) && Alone(acts, i)
    ensures OnlyOurs(After(c, s, acts), i)
  {
    if acts != [] {
      var pre, a := acts[..|acts| - 1], acts[|acts| - 1];
      assert forall b | b in pre :: b in acts;
      OursStay(c, s, pre, i);
      ArrivalsStay(c, s, pre);
      if Enabled(c, After(c, s, pre), a) {
        StepKeepsOurs(c, After(c, s, pre), a, i);
      }
    }
  }

  /** A key that a schedule adds to the store holds a callback's event exactly when a callback landed first, and
      otherwise the finalizer's own event. */
  lemma {:induction false} WhoLanded(c: Config, s: State, acts: seq<Action>, i: Finalization.Input, id: string)
    requires OnlyOurs(s, i) && ArrivalsReceived(s) && Alone(acts, i)
    requires Key(i.runID, i.stage, id) !in s.store
    ensures var t, k := After(c, s, acts), Key(i.runID, i.stage, id);
            && (Landed(c, s, acts, k) <==> k in t.store && t.store[k].receivedAt.Some?)
            && (k in t.store && t.store[k].receivedAt.None? ==>
                  id in Finalization.Missing(i) && t.store[k] == Finalization.MissingEvent(i, id))
  {
    var k := Key(i.runID, i.stage, id);
    if acts != [] {
      var pre, a := acts[..|acts| - 1], acts[|acts| - 1];
      assert forall b | b in pre :: b in acts;
      var u := After(c, s, pre);
      WhoLanded(c, s, pre, i, id);
      OursStay(c, s, pre, i);
      LandedGrows(c, s, acts, k);
      StoreStep(c, u, a, k);
    }
  }

  lemma LandsInPrefix(c: Config, s: State, acts: seq<Action>, n: int, k: Key)
    requires acts != [] && n != |acts| - 1
    ensures LandsAt(c, s, acts, n, k) <==> LandsAt(c, s, acts[..|acts| - 1], n, k)
  {
    if 0 <= n < |acts| - 1 {
      assert acts[..|acts| - 1][..n] == acts[..n];
    }
  }

  lemma LandedGrows(c: Config, s: State, acts: seq<Action>, k: Key)
    requires acts != []
    ensures var pre, a := acts[..|acts| - 1], acts[|acts| - 1];
            Landed(c, s, acts, k) <==> Landed(c, s, pre, k) || LandsNow(c, After(c, s, pre), a, k)
  {
    var m := |acts| - 1;
    var pre := acts[..m];
    if Landed(c, s, pre, k) {
      var n :| LandsAt(c, s, pre, n, k);
      LandsInPrefix(c, s, acts, n, k);
    }
    if LandsNow(c, After(c, s, pre), acts[m], k) {
      assert LandsAt(c, s, acts, m, k);
    }
    if Landed(c, s, acts, k) {
      var n :| LandsAt(c, s, acts, n, k);
      if n != m {
        LandsInPrefix(c, s, acts, n, k);
      }
    }
  }

  /** One action's effect on one key of the store. */
  lemma StoreStep(c: Config, s: State, a: Action, k: Key)
    ensures var t := if Enabled(c, s, a) then Step(c, s, a) else s;
            && (k in s.store ==> k in t.store && t.store[k] == s.store[k])
            && (k !in s.store && k in t.store ==>
                  Enabled(c, s, a) && a.Write? && a.ok && KeyOf(a.flight.event) == k && t.store[k] == a.flight.event
                  && a.flight in s.flights)
            && (LandsNow(c, s, a, k) ==> k in t.store && t.store[k] == a.flight.event)
  {
  }

  lemma FinalizeMakesOurs(c: Config, s: State, a: Action)
    requires Enabled(c, s, a) && a.Finalize?
    requires var i := InputAt(s, a.sessionID, a.runID, a.stage, a.cutoff, a.requests);
             (forall f | f in s.flights && f.event.runID == i.runID && f.event.stage == i.stage :: f.event.receivedAt.Some?)
             && (forall e | e in s.queue && e.runID == i.runID && e.stage == i.stage :: e.receivedAt.Some?)
    ensures OnlyOurs(Step(c, s, a), InputAt(s, a.sessionID, a.runID, a.stage, a.cutoff, a.requests))
    ensures Step(c, s, a).store == s.store
  {
    var i := InputAt(s, a.sessionID, a.runID, a.stage, a.cutoff, a.requests);
    var s' := Step(c, s, a);
    forall f | f in s'.flights && f.event.receivedAt.None? && f.event.runID == i.runID && f.event.stage == i.stage
      ensures f.event.txnID in Finalization.Missing(i) && f.event == Finalization.MissingEvent(i, f.event.txnID)
    {
      assert f !in s.flights;
    }
  }

  /** Nothing is under way, and no write under keys of the stage was refused. */
  ghost predicate Quiet(s: State, runID: string, stage: Stage) {
    s.queue == [] && s.flights == multiset{} && forall k | k in s.lostKeys :: k.runID != runID || k.stage != stage
  }

  /** A finalization in the midst of callbacks, and any schedule after it. No earlier or later finalization of the
      stage is under way: its events were all received. */
  ghost predicate FinalizedAmid(c: Config, acts: seq<Action>, a: Action, more: seq<Action>) {
    var s := After(c, INIT, acts);
    && a.Finalize? && Enabled(c, s, a)
    && (forall f | f in s.flights && f.event.runID == a.runID && f.event.stage == a.stage :: f.event.receivedAt.Some?)
    && (forall e | e in s.queue && e.runID == a.runID && e.stage == a.stage :: e.receivedAt.Some?)
    && Alone(more, InputAt(s, a.sessionID, a.runID, a.stage, a.cutoff, a.requests))
    && Quiet(After(c, Step(c, s, a), more), a.runID, a.stage)
  }

  /** When all is quiet again, the store differs from the summarized events exactly on the transactions for which a
      callback's write landed after the finalizer read the store and before its own write: it holds the same event
      for every other transaction of the summary, and no other transaction at all. */
  lemma StoreDiffersExactly(c: Config, acts: seq<Action>, a: Action, more: seq<Action>, id: string)
    requires FinalizedAmid(c, acts, a, more) && id != ""
    ensures var s := After(c, INIT, acts);
            var i := InputAt(s, a.sessionID, a.runID, a.stage, a.cutoff, a.requests);
            var t, k := After(c, Step(c, s, a), more), Key(a.runID, a.stage, id);
            && (k in t.store <==> id in Finalization.Population(i) || Landed(c, Step(c, s, a), more, k))
            && (id in Finalization.Population(i) ==> (t.store[k] != Finalization.Final(i)[id] <==> Landed(c, Step(c, s, a), more, k)))
  {
    var s := After(c, INIT, acts);
    var i := InputAt(s, a.sessionID, a.runID, a.stage, a.cutoff, a.requests);
    var s1, k := Step(c, s, a), Key(a.runID, a.stage, id);
    Reachable(c, acts);
    StepKeepsInv(c, s, a);
    FinalizeMakesOurs(c, s, a);
    assert id in i.existing <==> k in s.store;
    if k in s.store {
      NeverRewrites(c, s1, more);
      AlreadyStored(c, s1, more, k);
    } else {
      ArrivalsStay(c, INIT, acts);
      ArrivalsAfterFinalize(c, s, a);
      WhoLanded(c, s1, more, i, id);
      if id in Finalization.Missing(i) {
        MissingStored(c, s, a, more, id);
      }
    }
  }

  lemma ArrivalsAfterFinalize(c: Config, s: State, a: Action)
    requires ArrivalsReceived(s) && Enabled(c, s, a) && a.Finalize?
    ensures ArrivalsReceived(Step(c, s, a))
  {
    forall f | f in Step(c, s, a).flights && f.place.Arriving? ensures f.event.receivedAt.Some? {
      if f !in s.flights {
        NewArrival(c, s, a, f);
      }
    }
  }

  lemma AlreadyStored(c: Config, s: State, acts: seq<Action>, k: Key)
    requires k in s.store
    ensures !Landed(c, s, acts, k)
  {
    forall n | 0 <= n < |acts| ensures !LandsAt(c, s, acts, n, k) {
      NeverRewrites(c, s, acts[..n]);
    }
  }

  /** The finalizer's events reach the store, or find their key taken. */
  lemma MissingStored(c: Config, s: State, a: Action, more: seq<Action>, id: string)
    requires Inv(c, Step(c, s, a)) && Enabled(c, s, a) && a.Finalize?
    requires Quiet(After(c, Step(c, s, a), more), a.runID, a.stage)
    requires id in Finalization.Missing(InputAt(s, a.sessionID, a.runID, a.stage, a.cutoff, a.requests))
    ensures Key(a.runID, a.stage, id) in After(c, Step(c, s, a), more).store
  {
    var e := Finalization.MissingEvent(InputAt(s, a.sessionID, a.runID, a.stage, a.cutoff, a.requests), id);
    MissingCreated(c, s, a, id);
    InvStays(c, Step(c, s, a), more);
    QuietStored(c, After(c, Step(c, s, a), more), a.runID, a.stage, e);
  }

  lemma MissingCreated(c: Config, s: State, a: Action, id: string)
    requires a.Finalize?
    requires id in Finalization.Missing(InputAt(s, a.sessionID, a.runID, a.stage, a.cutoff, a.requests))
    ensures var e := Finalization.MissingEvent(InputAt(s, a.sessionID, a.runID, a.stage, a.cutoff, a.requests), id);
            e in Step(c, s, a).created && KeyOf(e) == Key(a.runID, a.stage, id)
  {
  }

  lemma QuietStored(c: Config, s: State, runID: string, stage: Stage, e: Event)
    requires Inv(c, s) && Quiet(s, runID, stage) && e in s.created && e.runID == runID && e.stage == stage
    ensures KeyOf(e) in s.store
  {
    assert Located(s, KeyOf(e));
  }

  // ---------------------------------------------------------------- where events come from

  /** A callback on a routed transaction puts one event under way: that of the run it is routed to, a timeout exactly
      when the request was stamped thirty seconds before or earlier, with the elapsed time measured from the stamp. */
  lemma CallbackMakesEvent(c: Config, s: State, a: Action) returns (e: Event)
    requires a.Callback? && Enabled(c, s, a)
    ensures var t, r := Step(c, s, a), s.links[a.txnID];
            var k := Key(r.runID, a.stage, a.txnID);
            && t == s.(created := s.created + {e}, flights := s.flights + multiset{Flight(e, Arriving)})
            && KeyOf(e) == k && e.sessionID == r.sessionID && e.receivedAt == Some(a.receivedAt)
            && (e.outcome.Timeout? <==> k in s.stamps && a.receivedAt - s.stamps[k] >= 30000000000)
            && (!e.outcome.Timeout? ==> e.outcome == a.outcome)
            && (if k in s.stamps then e.sentAt == s.stamps[k] && e.latencyMs == Some(Milliseconds(a.receivedAt - s.stamps[k]))
                else e.sentAt == a.receivedAt && e.latencyMs == None)
  {
    var r := s.links[a.txnID];
    var k := Key(r.runID, a.stage, a.txnID);
    var sent := if k in s.stamps then Some(s.stamps[k]) else None;
    e := Classify(r.sessionID, r.runID, a.stage, a.txnID, a.receivedAt, sent, a.outcome);
    ClassifySound(r.sessionID, r.runID, a.stage, a.txnID, a.receivedAt, sent, a.outcome);
    ClassifyRecords(r.sessionID, r.runID, a.stage, a.txnID, a.receivedAt, sent, a.outcome);
  }

  /** A callback is never lost: in every schedule after it, its run has an event for its transaction in the store, in
      the queue or in somebody's hands, unless the store refused the write. */
  lemma CallbackStaysLocated(c: Config, acts: seq<Action>, a: Action, more: seq<Action>)
    requires a.Callback? && Enabled(c, After(c, INIT, acts), a)
    ensures var s := After(c, INIT, acts);
            Located(After(c, Step(c, s, a), more), Key(s.links[a.txnID].runID, a.stage, a.txnID))
  {
    var s := After(c, INIT, acts);
    Reachable(c, acts);
    var e := CallbackMakesEvent(c, s, a);
    StepKeepsInv(c, s, a);
    InvStays(c, Step(c, s, a), more);
    assert e in After(c, Step(c, s, a), more).created;
  }

  /** At some moment of the schedule the queue was full. */
  ghost predicate WasFull(c: Config, s: State, acts: seq<Action>) {
    acts != [] && (WasFull(c, s, acts[..|acts| - 1]) || |After(c, s, acts[..|acts| - 1]).queue| == c.capacity)
  }

  /** The synchronous write is a fallback: an event takes it only if the queue was full. */
  lemma {:induction false} SyncOnlyWhenFull(c: Config, acts: seq<Action>, f: Flight)
    requires f in After(c, INIT, acts).flights && f.place.SyncPath?
    ensures WasFull(c, INIT, acts)
  {
    var pre := acts[..|acts| - 1];
    var t, a := After(c, INIT, pre), acts[|acts| - 1];
    if f in t.flights {
      SyncOnlyWhenFull(c, pre, f);
    } else {
      Reachable(c, pre);
      NewSync(c, t, a, f);
    }
  }

  lemma NewSync(c: Config, s: State, a: Action, f: Flight)
    requires Enabled(c, s, a) && f in Step(c, s, a).flights && f !in s.flights && f.place.SyncPath?
    ensures a.Offer? && |s.queue| >= c.capacity
  {
    match a
    case Offer(e) => CameFrom(s.flights, f, Flight(e, Arriving), Flight(e, SyncPath));
    case Write(g, _) => CameFrom(s.flights, f, g, g);
    case Finalize(_, _, _, _, _) => FinalizerFlights(c, s, a, f);
    case _ =>
  }

  /** What the finalizer of a stage reads: the stamps and stored events of that run and stage, each under its own
      transaction, and no others. */
  lemma InputMeaning(s: State, sessionID: string, runID: string, stage: Stage, cutoff: int, requests: seq<string>, id: string)
    ensures var i, k := InputAt(s, sessionID, runID, stage, cutoff, requests), Key(runID, stage, id);
            && (id in i.sentAt <==> k in s.stamps) && (k in s.stamps ==> i.sentAt[id] == s.stamps[k])
            && (id in i.existing <==> k in s.store) && (k in s.store ==> i.existing[id] == s.store[k])
  {
  }
}
