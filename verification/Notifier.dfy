/** The callback notifier: a counter and a one-place channel per (run, action). First the object with its two
    maps; then notifiers and waiters running concurrently, as a step machine over every schedule. */
module Notifier {
  import opened Counting
  import opened Names

  function Key(runID: string, action: string): string {
    runID + ":" + action
  }

  lemma KeyInjective(r1: string, a1: string, r2: string, a2: string)
    requires ColonFree(r1) && ColonFree(r2)
    ensures Key(r1, a1) == Key(r2, a2) <==> r1 == r2 && a1 == a2
  {
    if Key(r1, a1) == Key(r2, a2) {
      HeadAndRest(r1, a1, r2, a2);
    }
  }

  /** The keys a reset of `runID` removes. */
  predicate Resets(runID: string, k: string) {
    |k| > |runID| + 1 && runID + ":" <= k
  }

  /** Resetting one run touches the keys of no other. */
  lemma ResetIsExact(runID: string, other: string, action: string)
    requires ColonFree(runID) && ColonFree(other)
    ensures Resets(runID, Key(other, action)) <==> other == runID && action != ""
  {
    PrefixMeansHead(runID, other, action);
  }

  class CallbackNotifier {
    var counters: map<string, nat>
    var channels: map<string, bool>

    constructor ()
      ensures counters == map[] && channels == map[]
    {
      counters, channels := map[], map[];
    }

    method GetOrCreate(runID: string, action: string) returns (k: string)
      modifies this
      ensures k == Key(runID, action)
      ensures counters == if k in old(counters) then old(counters) else old(counters)[k := 0]
      ensures channels == if k in old(channels) then old(channels) else old(channels)[k := false]
    {
      k := Key(runID, action);
      if k !in counters {
        counters := counters[k := 0];
      }
      if k !in channels {
        channels := channels[k := false];
      }
    }

    /** One more callback counted, and a token in the channel whether or not one was there. */
    method Notify(runID: string, action: string)
      modifies this
      ensures var k := Key(runID, action);
              && counters == old(counters)[k := (if k in old(counters) then old(counters)[k] else 0) + 1]
              && channels == old(channels)[k := true]
    {
      var k := GetOrCreate(runID, action);
      counters := counters[k := counters[k] + 1];
      if !channels[k] {
        channels := channels[k := true];
      }
    }

    method Reset(runID: string)
      modifies this
      ensures channels == map k | k in old(channels) && !Resets(runID, k) :: old(channels)[k]
      ensures counters == map k | k in old(counters) && !(k in old(channels) && Resets(runID, k)) :: old(counters)[k]
    {
      var prefix := runID + ":";
      var todo := channels.Keys;
      while todo != {}
        invariant todo <= old(channels).Keys
        invariant channels == map k | k in old(channels) && (k in todo || !Resets(runID, k)) :: old(channels)[k]
        invariant counters == map k | k in old(counters) && !(k in old(channels) - todo && Resets(runID, k)) :: old(counters)[k]
        decreases todo
      {
        var k :| k in todo;
        if |k| > |prefix| && k[..|prefix|] == prefix {
          channels := channels - {k};
          counters := counters - {k};
        }
        todo := todo - {k};
      }
    }
  }

  // ---------------------------------------------------------------- concurrent notifiers and waiters

  datatype NotifierPc = Entering | Holding | Counted | Finished

  datatype NotifierThread = NotifierThread(key: string, pc: NotifierPc)

  datatype WaiterPc =
    | Start
    | FirstCheck
    | Blocked
    | Woken
    | Report(timedOut: bool)
    | Returned(count: nat, timedOut: bool)

  datatype WaiterThread = WaiterThread(key: string, target: int, pc: WaiterPc)

  datatype State = State(
    counters: map<string, nat>, channels: map<string, bool>,
    notifiers: seq<NotifierThread>, waiters: seq<WaiterThread>)

  /** At most one waiter per key, as a run waits once per action. */
  ghost predicate Fresh(s: State) {
    && s.counters == map[] && s.channels == map[]
    && (forall i | 0 <= i < |s.notifiers| :: s.notifiers[i].pc.Entering?)
    && (forall i | 0 <= i < |s.waiters| :: s.waiters[i].pc.Start?)
    && (forall i, j | 0 <= i < j < |s.waiters| :: s.waiters[i].key != s.waiters[j].key)
  }

  datatype Action = NotifierStep(i: nat) | WaiterStep(i: nat) | DeadlineFires(i: nat)

  predicate Enabled(s: State, a: Action) {
    match a
    case NotifierStep(i) => i < |s.notifiers| && !s.notifiers[i].pc.Finished?
    case WaiterStep(i) =>
      && i < |s.waiters| && !s.waiters[i].pc.Returned?
      && (s.waiters[i].pc.Blocked? ==> s.waiters[i].key in s.channels && s.channels[s.waiters[i].key])
    case DeadlineFires(i) => i < |s.waiters| && s.waiters[i].pc.Blocked?
  }

  function Ensured(s: State, k: string): State {
    s.(counters := if k in s.counters then s.counters else s.counters[k := 0],
       channels := if k in s.channels then s.channels else s.channels[k := false])
  }

  function LoadOf(s: State, k: string): nat {
    if k in s.counters then s.counters[k] else 0
  }

  function SetNotifier(s: State, i: nat, pc: NotifierPc): State
    requires i < |s.notifiers|
  {
    s.(notifiers := s.notifiers[i := s.notifiers[i].(pc := pc)])
  }

  function SetWaiter(s: State, i: nat, pc: WaiterPc): State
    requires i < |s.waiters|
  {
    s.(waiters := s.waiters[i := s.waiters[i].(pc := pc)])
  }

  function StepNotifier(s: State, i: nat): State
    requires i < |s.notifiers|
  {
    var k := s.notifiers[i].key;
    match s.notifiers[i].pc
    case Entering => SetNotifier(Ensured(s, k), i, Holding)
    case Holding => SetNotifier(s.(counters := s.counters[k := LoadOf(s, k) + 1]), i, Counted)
    case Counted => SetNotifier(s.(channels := s.channels[k := true]), i, Finished)
    case Finished => s
  }

  function StepWaiter(s: State, i: nat): State
    requires i < |s.waiters|
  {
    var w := s.waiters[i];
    match w.pc
    case Start => SetWaiter(Ensured(s, w.key), i, FirstCheck)
    case FirstCheck => SetWaiter(s, i, if LoadOf(s, w.key) >= w.target then Report(false) else Blocked)
    case Blocked => SetWaiter(s.(channels := s.channels[w.key := false]), i, Woken)
    case Woken => SetWaiter(s, i, if LoadOf(s, w.key) >= w.target then Report(false) else Blocked)
    case Report(t) => SetWaiter(s, i, Returned(LoadOf(s, w.key), t))
    case Returned(_, _) => s
  }

  function Step(s: State, a: Action): State
    requires Enabled(s, a)
  {
    match a
    case NotifierStep(i) => StepNotifier(s, i)
    case WaiterStep(i) => StepWaiter(s, i)
    case DeadlineFires(i) => SetWaiter(s, i, Report(true))
  }

  function CountedFor(k: string): NotifierThread -> bool {
    (n: NotifierThread) => n.key == k && (n.pc.Counted? || n.pc.Finished?)
  }

  /** Some notifier of `k` has counted its callback and not yet offered its token. */
  ghost predicate OnItsWay(s: State, k: string) {
    exists i :: 0 <= i < |s.notifiers| && s.notifiers[i] == NotifierThread(k, Counted)
  }

  ghost predicate WaiterRight(s: State, i: nat)
    requires i < |s.waiters|
  {
    var w := s.waiters[i];
    && (w.pc.Blocked? && LoadOf(s, w.key) >= w.target ==> (w.key in s.channels && s.channels[w.key]) || OnItsWay(s, w.key))
    && (w.pc == Report(false) ==> LoadOf(s, w.key) >= w.target)
    && (w.pc.Returned? ==> w.pc.count <= LoadOf(s, w.key) && (!w.pc.timedOut ==> w.pc.count >= w.target))
  }

  ghost predicate Inv(s: State) {
    && (forall i, j | 0 <= i < j < |s.waiters| :: s.waiters[i].key != s.waiters[j].key)
    && (forall i | 0 <= i < |s.waiters| :: WaiterRight(s, i))
    && (forall k {:trigger LoadOf(s, k)} :: LoadOf(s, k) == Count(s.notifiers, CountedFor(k)))
  }

  lemma FreshInv(s: State)
    requires Fresh(s)
    ensures Inv(s)
  {
    forall k {:trigger LoadOf(s, k)} ensures LoadOf(s, k) == Count(s.notifiers, CountedFor(k)) {
      CountNone(s.notifiers, CountedFor(k));
    }
  }

  lemma NotifierKeepsCounts(s: State, i: nat, k: string)
    requires Inv(s) && i < |s.notifiers|
    ensures LoadOf(StepNotifier(s, i), k) == Count(StepNotifier(s, i).notifiers, CountedFor(k))
  {
    var s' := StepNotifier(s, i);
    assert LoadOf(s, k) == Count(s.notifiers, CountedFor(k));
    CountUpdate(s.notifiers, i, s'.notifiers[i], CountedFor(k));
    assert s'.notifiers == s.notifiers[i := s'.notifiers[i]];
  }

  lemma NotifierKeepsWaiter(s: State, i: nat, j: nat)
    requires Inv(s) && i < |s.notifiers| && j < |s.waiters|
    ensures WaiterRight(StepNotifier(s, i), j)
  {
    var s' := StepNotifier(s, i);
    var k := s.waiters[j].key;
    assert WaiterRight(s, j);
    if s.notifiers[i] == NotifierThread(k, Holding) {
      assert s'.notifiers[i] == NotifierThread(k, Counted);
    } else if OnItsWay(s, k) && s.notifiers[i] != NotifierThread(k, Counted) {
      var h :| 0 <= h < |s.notifiers| && s.notifiers[h] == NotifierThread(k, Counted);
      assert s'.notifiers[h] == NotifierThread(k, Counted);
    }
  }

  /** A waiter's step, and its deadline, leave the notifiers, the counters and what is on its way to others. */
  lemma WaiterLeavesRest(s: State, a: Action, j: nat)
    requires Inv(s) && Enabled(s, a) && !a.NotifierStep? && j < |s.waiters|
    ensures var s' := Step(s, a);
            && s'.notifiers == s.notifiers && |s'.waiters| == |s.waiters|
            && LoadOf(s', s.waiters[j].key) == LoadOf(s, s.waiters[j].key)
            && (OnItsWay(s, s.waiters[j].key) ==> OnItsWay(s', s.waiters[j].key))
  {
    var s' := Step(s, a);
    assert s'.notifiers == s.notifiers;
  }

  lemma OtherWaitersStay(s: State, a: Action, j: nat)
    requires Inv(s) && Enabled(s, a) && !a.NotifierStep? && j < |s.waiters| && a.i != j
    ensures WaiterRight(Step(s, a), j)
  {
    assert WaiterRight(s, j);
    WaiterLeavesRest(s, a, j);
    assert s.waiters[a.i].key != s.waiters[j].key;
  }

  lemma WaiterKeepsWaiters(s: State, a: Action, j: nat)
    requires Inv(s) && Enabled(s, a) && !a.NotifierStep? && j < |s.waiters|
    ensures WaiterRight(Step(s, a), j)
  {
    if a.i != j {
      OtherWaitersStay(s, a, j);
    } else {
      assert WaiterRight(s, j);
      WaiterLeavesRest(s, a, j);
    }
  }

  lemma StepKeepsInv(s: State, a: Action)
    requires Inv(s) && Enabled(s, a)
    ensures Inv(Step(s, a))
  {
    var s' := Step(s, a);
    forall k {:trigger LoadOf(s', k)} ensures LoadOf(s', k) == Count(s'.notifiers, CountedFor(k)) {
      if a.NotifierStep? {
        NotifierKeepsCounts(s, a.i, k);
      } else {
        assert LoadOf(s, k) == Count(s.notifiers, CountedFor(k));
      }
    }
    forall j | 0 <= j < |s'.waiters| ensures WaiterRight(s', j) {
      if a.NotifierStep? {
        NotifierKeepsWaiter(s, a.i, j);
      } else {
        WaiterKeepsWaiters(s, a, j);
      }
    }
  }

  // ---------------------------------------------------------------- every schedule

  ghost function After(s: State, acts: seq<Action>): State {
    if acts == [] then s
    else
      var t, a := After(s, acts[..|acts| - 1]), acts[|acts| - 1];
      if Enabled(t, a) then Step(t, a) else t
  }

  lemma {:induction false} Reachable(s: State, acts: seq<Action>)
    requires Fresh(s)
    ensures Inv(After(s, acts))
  {
    if acts == [] {
      FreshInv(s);
    } else {
      Reachable(s, acts[..|acts| - 1]);
      var t, a := After(s, acts[..|acts| - 1]), acts[|acts| - 1];
      if Enabled(t, a) {
        StepKeepsInv(t, a);
      }
    }
  }

  /** A blocked waiter whose target has been reached has a token waiting, or a notifier about to offer one;
      and a waiter that returned before its deadline saw its target reached. */
  lemma NoLostWakeup(s: State, acts: seq<Action>, i: nat)
    requires Fresh(s) && i < |After(s, acts).waiters|
    ensures var t := After(s, acts);
            var w := t.waiters[i];
            && (w.pc.Blocked? && LoadOf(t, w.key) >= w.target ==> (w.key in t.channels && t.channels[w.key]) || OnItsWay(t, w.key))
            && (w.pc.Returned? && !w.pc.timedOut ==> w.pc.count >= w.target)
            && (w.pc.Returned? ==> w.pc.count <= Count(t.notifiers, CountedFor(w.key)))
  {
    Reachable(s, acts);
    var t := After(s, acts);
    assert WaiterRight(t, i);
    assert LoadOf(t, t.waiters[i].key) == Count(t.notifiers, CountedFor(t.waiters[i].key));
  }

  /** When nothing but a deadline can happen any more, a waiter has returned or its target was never reached. */
  lemma QuietMeansDone(s: State, acts: seq<Action>, i: nat)
    requires Fresh(s) && i < |After(s, acts).waiters|
    requires forall a: Action | Enabled(After(s, acts), a) :: a.DeadlineFires?
    ensures var t := After(s, acts);
            t.waiters[i].pc.Returned? || (t.waiters[i].pc.Blocked? && LoadOf(t, t.waiters[i].key) < t.waiters[i].target)
  {
    Reachable(s, acts);
    var t := After(s, acts);
    assert WaiterRight(t, i);
    assert !Enabled(t, WaiterStep(i));
    if OnItsWay(t, t.waiters[i].key) {
      var h :| 0 <= h < |t.notifiers| && t.notifiers[h] == NotifierThread(t.waiters[i].key, Counted);
      assert Enabled(t, NotifierStep(h));
    }
  }

  /** Once the notifiers are done, three steps of a blocked waiter bring it back with the final count. */
  lemma WaiterReturns(s: State, acts: seq<Action>, i: nat)
    requires Fresh(s) && i < |After(s, acts).waiters|
    requires var t := After(s, acts);
             && t.waiters[i].pc.Blocked? && LoadOf(t, t.waiters[i].key) >= t.waiters[i].target
             && forall h | 0 <= h < |t.notifiers| :: t.notifiers[h].pc.Finished?
    ensures var t, more := After(s, acts), [WaiterStep(i), WaiterStep(i), WaiterStep(i)];
            && i < |After(t, more).waiters|
            && After(t, more).waiters[i] == t.waiters[i].(pc := Returned(LoadOf(t, t.waiters[i].key), false))
  {
    Reachable(s, acts);
    var t := After(s, acts);
    assert WaiterRight(t, i);
    var a := WaiterStep(i);
    assert [a, a, a][..2] == [a, a] && [a, a][..1] == [a] && [a][..0] == [];
    var t1 := Step(t, a);
    assert After(t, [a]) == t1;
    var t2 := Step(t1, a);
    assert After(t, [a, a]) == t2;
    assert After(t, [a, a, a]) == Step(t2, a);
  }

  // ---------------------------------------------------------------- why a waiter comes back

  /** The deadline of waiter `i` fired at some moment of the schedule. */
  ghost predicate Fired(s: State, acts: seq<Action>, i: nat) {
    acts != []
    && (Fired(s, acts[..|acts| - 1], i)
        || (acts[|acts| - 1] == DeadlineFires(i) && Enabled(After(s, acts[..|acts| - 1]), DeadlineFires(i))))
  }

  predicate TimedOut(pc: WaiterPc) {
    (pc.Report? || pc.Returned?) && pc.timedOut
  }

  /** A waiter comes back without its target exactly when its own deadline fired while it was blocked. */
  lemma {:induction false} TimedOutExactly(s: State, acts: seq<Action>, i: nat)
    requires Fresh(s) && i < |s.waiters|
    ensures i < |After(s, acts).waiters|
    ensures TimedOut(After(s, acts).waiters[i].pc) <==> Fired(s, acts, i)
  {
    if acts != [] {
      TimedOutExactly(s, acts[..|acts| - 1], i);
      var t, a := After(s, acts[..|acts| - 1]), acts[|acts| - 1];
      if Enabled(t, a) {
        TimedOutStep(t, a, i);
      }
    }
  }

  lemma TimedOutStep(t: State, a: Action, i: nat)
    requires Enabled(t, a) && i < |t.waiters|
    ensures i < |Step(t, a).waiters|
    ensures TimedOut(Step(t, a).waiters[i].pc) <==> TimedOut(t.waiters[i].pc) || a == DeadlineFires(i)
  {
  }

  /** At some moment of the schedule waiter `i` came back with `count`, the callbacks counted at that moment. */
  ghost predicate CameBack(s: State, acts: seq<Action>, i: nat, count: nat) {
    acts != []
    && (CameBack(s, acts[..|acts| - 1], i, count)
        || (acts[|acts| - 1] == WaiterStep(i)
            && var t := After(s, acts[..|acts| - 1]);
               i < |t.waiters| && t.waiters[i].pc.Report? && count == Count(t.notifiers, CountedFor(t.waiters[i].key))))
  }

  /** The count a waiter comes back with is the number of callbacks counted for its key at that moment. */
  lemma {:induction false} CountIsCurrent(s: State, acts: seq<Action>, i: nat)
    requires Fresh(s) && i < |After(s, acts).waiters| && After(s, acts).waiters[i].pc.Returned?
    ensures CameBack(s, acts, i, After(s, acts).waiters[i].pc.count)
  {
    var pre := acts[..|acts| - 1];
    var t, a := After(s, pre), acts[|acts| - 1];
    if t.waiters[i].pc.Returned? {
      CountIsCurrent(s, pre, i);
    } else {
      Reachable(s, pre);
      ReturnStep(t, a, i);
    }
  }

  lemma ReturnStep(t: State, a: Action, i: nat)
    requires Inv(t) && Enabled(t, a) && i < |t.waiters| && !t.waiters[i].pc.Returned? && Step(t, a).waiters[i].pc.Returned?
    ensures a == WaiterStep(i) && t.waiters[i].pc.Report? && Step(t, a).waiters[i].key == t.waiters[i].key
    ensures Step(t, a).waiters[i].pc.count == Count(t.notifiers, CountedFor(t.waiters[i].key))
  {
    assert LoadOf(t, t.waiters[i].key) == Count(t.notifiers, CountedFor(t.waiters[i].key));
  }

  /** A waiter never blocks in front of a count that its check finds reached: checked, it reports at once. */
  lemma CheckedMeaning(s: State, acts: seq<Action>, i: nat)
    requires Fresh(s) && i < |After(s, acts).waiters|
    requires var pc := After(s, acts).waiters[i].pc; pc.FirstCheck? || pc.Woken?
    ensures var t := After(s, acts);
            var w, w' := t.waiters[i], Step(t, WaiterStep(i)).waiters[i];
            if Count(t.notifiers, CountedFor(w.key)) >= w.target then w'.pc == Report(false) else w'.pc == Blocked
  {
    Reachable(s, acts);
    var t := After(s, acts);
    assert LoadOf(t, t.waiters[i].key) == Count(t.notifiers, CountedFor(t.waiters[i].key));
  }

  /** Some notifier of `k` is done. */
  ghost predicate SomeDone(s: State, k: string) {
    exists i :: 0 <= i < |s.notifiers| && s.notifiers[i] == NotifierThread(k, Finished)
  }

  /** No wakeup out of nothing: a token in a channel was put there by a notifier of its key. */
  lemma {:induction false} TokenMeaning(s: State, acts: seq<Action>, k: string)
    requires Fresh(s)
    ensures var t := After(s, acts); k in t.channels && t.channels[k] ==> SomeDone(t, k)
  {
    if acts != [] {
      TokenMeaning(s, acts[..|acts| - 1], k);
      var t, a := After(s, acts[..|acts| - 1]), acts[|acts| - 1];
      if Enabled(t, a) {
        TokenStep(t, a, k);
      }
    }
  }

  lemma TokenStep(t: State, a: Action, k: string)
    requires Enabled(t, a) && (k in t.channels && t.channels[k] ==> SomeDone(t, k))
    ensures var t' := Step(t, a); k in t'.channels && t'.channels[k] ==> SomeDone(t', k)
  {
    var t' := Step(t, a);
    if SomeDone(t, k) {
      var i :| 0 <= i < |t.notifiers| && t.notifiers[i] == NotifierThread(k, Finished);
      assert t'.notifiers[i] == NotifierThread(k, Finished);
    } else if a.NotifierStep? && t.notifiers[a.i] == NotifierThread(k, Counted) {
      assert t'.notifiers[a.i] == NotifierThread(k, Finished);
    }
  }
}
