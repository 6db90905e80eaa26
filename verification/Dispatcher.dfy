/** The bounded concurrent dispatcher as a step machine: the dispatch loop, one goroutine per payload sent,
    and a context that may be cancelled at any moment, interleaved in every possible way. */
module Dispatcher {
  import opened Counting

  datatype Error = NoError | ContextEnded | DeadlineExceeded | SendFailed(code: int)

  datatype Result = Result(index: int, txnID: string, err: Error)

  /** What a freshly made slot holds: no error. */
  const ZERO := Result(0, "", NoError)

  datatype Config = Config(n: nat, maxInFlight: int, throttled: bool) {
    function Capacity(): nat {
      if maxInFlight <= 0 then 256 else maxInFlight
    }
  }

  /** Where the dispatch loop stands. */
  datatype Loop =
    | Top(i: nat)
    | Throttle(i: nat)
    | Select(i: nat)
    | Recheck(i: nat)
    | Fill(i: nat)
    | Waiting
    | Returned

  /** Where the goroutine of one payload stands, with what its send returned. */
  datatype Worker =
    | Unborn
    | Spawned
    | Sending
    | Sent(r: Result)
    | Wrote(r: Result)
    | Released(r: Result)
    | Done(r: Result)

  /** `leaked` counts tokens of loops that ended while holding one; `writes`, `sends` and `okReturns`
      record history: writes per slot, sends per payload, and sends that returned no error. */
  datatype State = State(
    loop: Loop, workers: seq<Worker>, results: seq<Result>, sem: nat, leaked: nat, wg: nat, cancelled: bool,
    writes: seq<nat>, sends: seq<nat>, okReturns: nat)

  function Init(c: Config): State {
    State(Top(0), seq(c.n, _ => Unborn), seq(c.n, _ => ZERO), 0, 0, 0, false,
          seq(c.n, _ => 0), seq(c.n, _ => 0), 0)
  }

  /** One step of the loop, of the goroutine of payload `k`, or of the world. `yes` settles the loop's choices:
      whether the throttle grants, and whether a ready cancellation is preferred over a free token. */
  datatype Action = Advance(yes: bool) | Work(k: nat, r: Result) | Cancel

  predicate Enabled(c: Config, s: State, a: Action) {
    match a
    case Cancel => !s.cancelled
    case Work(k, _) => k < |s.workers| && !s.workers[k].Unborn? && !s.workers[k].Done?
    case Advance(yes) =>
      match s.loop
      case Select(_) => if yes then s.cancelled else s.sem < c.Capacity()
      case Waiting => s.wg == 0
      case Returned => false
      case _ => true
  }

  function Write(s: State, k: nat, r: Result): State
    requires k < |s.results| && k < |s.writes|
  {
    s.(results := s.results[k := r], writes := s.writes[k := s.writes[k] + 1])
  }

  predicate Shaped(c: Config, s: State) {
    && |s.workers| == |s.results| == |s.writes| == |s.sends| == c.n
    && (s.loop.Throttle? || s.loop.Select? || s.loop.Recheck? ==> s.loop.i < c.n)
    && (s.loop.Top? || s.loop.Fill? ==> s.loop.i <= c.n)
    && (s.wg == 0 ==> forall k | 0 <= k < c.n :: !Alive(s.workers[k]))
    && (s.sem == 0 ==> forall k | 0 <= k < c.n :: !HoldsToken(s.workers[k]))
  }

  function AdvanceLoop(c: Config, s: State, yes: bool): State
    requires Shaped(c, s)
  {
    match s.loop
    case Top(i) =>
      s.(loop := if i == c.n then Waiting else if s.cancelled then Fill(i) else Throttle(i))
    case Throttle(i) =>
      if !c.throttled || yes then s.(loop := Select(i))
      else Write(s, i, Result(i, "", DeadlineExceeded)).(loop := Top(i + 1))
    case Select(i) =>
      if yes then s.(loop := Fill(i)) else s.(sem := s.sem + 1, loop := Recheck(i))
    case Recheck(i) =>
      if s.cancelled then s.(loop := Fill(i), leaked := s.leaked + 1)
      else s.(wg := s.wg + 1, workers := s.workers[i := Spawned], loop := Top(i + 1))
    case Fill(i) =>
      if i == c.n then s.(loop := Waiting)
      else Write(s, i, Result(i, "", ContextEnded)).(loop := Fill(i + 1))
    case Waiting => s.(loop := Returned)
    case Returned => s
  }

  /** A goroutine sends, writes its slot, gives its token back and reports to the wait group, in that order. */
  function AdvanceWorker(c: Config, s: State, k: nat, r: Result): State
    requires Shaped(c, s) && k < c.n
  {
    match s.workers[k]
    case Spawned => s.(workers := s.workers[k := Sending], sends := s.sends[k := s.sends[k] + 1])
    case Sending => s.(workers := s.workers[k := Sent(r)], okReturns := s.okReturns + (if r.err.NoError? then 1 else 0))
    case Sent(r') => Write(s, k, r').(workers := s.workers[k := Wrote(r')])
    case Wrote(r') => s.(workers := s.workers[k := Released(r')], sem := s.sem - 1)
    case Released(r') => s.(workers := s.workers[k := Done(r')], wg := s.wg - 1)
    case _ => s
  }

  function Step(c: Config, s: State, a: Action): State
    requires Shaped(c, s) && Enabled(c, s, a)
  {
    match a
    case Cancel => s.(cancelled := true)
    case Advance(yes) => AdvanceLoop(c, s, yes)
    case Work(k, r) => AdvanceWorker(c, s, k, r)
  }

  // ---------------------------------------------------------------- the invariant

  predicate Alive(w: Worker) {
    !w.Unborn? && !w.Done?
  }

  predicate HoldsToken(w: Worker) {
    w.Spawned? || w.Sending? || w.Sent? || w.Wrote?
  }

  predicate HasSent(w: Worker) {
    !w.Unborn? && !w.Spawned?
  }

  predicate HasWritten(w: Worker) {
    w.Wrote? || w.Released? || w.Done?
  }

  predicate SucceededSend(w: Worker) {
    (w.Sent? || HasWritten(w)) && w.r.err.NoError?
  }

  const ALIVE := (w: Worker) => Alive(w)
  const HOLDS := (w: Worker) => HoldsToken(w)
  const SENDING := (w: Worker) => w.Sending?
  const SUCCEEDED := (w: Worker) => SucceededSend(w)
  const NO_ERROR := (r: Result) => r.err.NoError?

  /** The slots below this position have been dealt with by the loop. */
  function Frontier(c: Config, s: State): nat {
    match s.loop
    case Waiting => c.n
    case Returned => c.n
    case _ => s.loop.i
  }

  /** Everything about one payload: how often it was sent and its slot written, and by whom. */
  ghost predicate SlotRight(c: Config, s: State, k: nat)
    requires |s.workers| == |s.results| == |s.writes| == |s.sends| == c.n && k < c.n
  {
    var w := s.workers[k];
    && s.sends[k] == (if HasSent(w) then 1 else 0)
    && (k >= Frontier(c, s) ==> w.Unborn?)
    && s.writes[k] == (if HasWritten(w) || (w.Unborn? && k < Frontier(c, s)) then 1 else 0)
    && (HasWritten(w) ==> s.results[k] == w.r)
    && (w.Unborn? && k < Frontier(c, s) ==> Refused(c, s, k))
  }

  /** A slot the loop filled itself: the throttle denied it, or the context had ended. */
  ghost predicate Refused(c: Config, s: State, k: nat)
    requires k < |s.results|
  {
    || (s.results[k] == Result(k, "", DeadlineExceeded) && c.throttled)
    || (s.results[k] == Result(k, "", ContextEnded) && s.cancelled)
  }

  ghost predicate Inv(c: Config, s: State) {
    && Shaped(c, s)
    && (forall k | 0 <= k < c.n :: SlotRight(c, s, k))
    && s.wg == Count(s.workers, ALIVE)
    && s.sem == Count(s.workers, HOLDS) + (if s.loop.Recheck? then 1 else 0) + s.leaked
    && (s.loop.Fill? ==> s.cancelled)
    && (s.leaked > 0 ==> s.loop.Fill? || s.loop.Waiting? || s.loop.Returned?)
    && s.sem <= c.Capacity()
    && s.okReturns == Count(s.workers, SUCCEEDED)
    && (s.loop.Returned? ==> s.wg == 0)
  }

  lemma InitInv(c: Config)
    ensures Inv(c, Init(c))
  {
    var s := Init(c);
    CountNone(s.workers, ALIVE);
    CountNone(s.workers, HOLDS);
    CountNone(s.workers, SUCCEEDED);
  }

  lemma ShapedFromCounts(c: Config, s: State)
    requires |s.workers| == c.n
    requires s.wg >= Count(s.workers, ALIVE) && s.sem >= Count(s.workers, HOLDS)
    ensures s.wg == 0 ==> forall k | 0 <= k < c.n :: !Alive(s.workers[k])
    ensures s.sem == 0 ==> forall k | 0 <= k < c.n :: !HoldsToken(s.workers[k])
  {
    if s.wg == 0 {
      CountZero(s.workers, ALIVE);
      assert forall k | 0 <= k < c.n :: !ALIVE(s.workers[k]);
    }
    if s.sem == 0 {
      CountZero(s.workers, HOLDS);
      assert forall k | 0 <= k < c.n :: !HOLDS(s.workers[k]);
    }
  }

  lemma WorkersUpdated(s: State, k: nat, w: Worker)
    requires k < |s.workers|
    ensures var t := s.workers[k := w];
            && Count(t, ALIVE) == Count(s.workers, ALIVE) - (if Alive(s.workers[k]) then 1 else 0) + (if Alive(w) then 1 else 0)
            && Count(t, HOLDS) == Count(s.workers, HOLDS) - (if HoldsToken(s.workers[k]) then 1 else 0) + (if HoldsToken(w) then 1 else 0)
            && Count(t, SUCCEEDED)
               == Count(s.workers, SUCCEEDED) - (if SucceededSend(s.workers[k]) then 1 else 0) + (if SucceededSend(w) then 1 else 0)
  {
    CountUpdate(s.workers, k, w, ALIVE);
    CountUpdate(s.workers, k, w, HOLDS);
    CountUpdate(s.workers, k, w, SUCCEEDED);
  }

  lemma WorkerKeepsSlots(c: Config, s: State, k: nat, r: Result, j: nat)
    requires Inv(c, s) && Enabled(c, s, Work(k, r)) && j < c.n
    ensures SlotRight(c, AdvanceWorker(c, s, k, r), j)
  {
    assert SlotRight(c, s, j);
  }

  lemma WorkerKeepsCounts(c: Config, s: State, k: nat, r: Result)
    requires Inv(c, s) && Enabled(c, s, Work(k, r))
    ensures var s' := AdvanceWorker(c, s, k, r);
            && s'.wg == Count(s'.workers, ALIVE)
            && s'.sem - s.leaked - (if s.loop.Recheck? then 1 else 0) == Count(s'.workers, HOLDS)
            && s'.okReturns == Count(s'.workers, SUCCEEDED)
  {
    var s' := AdvanceWorker(c, s, k, r);
    WorkersUpdated(s, k, s'.workers[k]);
    assert s'.workers == s.workers[k := s'.workers[k]];
  }

  lemma WorkerKeepsInv(c: Config, s: State, k: nat, r: Result)
    requires Inv(c, s) && Enabled(c, s, Work(k, r))
    ensures Inv(c, AdvanceWorker(c, s, k, r))
  {
    var s' := AdvanceWorker(c, s, k, r);
    WorkerKeepsCounts(c, s, k, r);
    ShapedFromCounts(c, s');
    forall j | 0 <= j < c.n ensures SlotRight(c, s', j) {
      WorkerKeepsSlots(c, s, k, r, j);
    }
    WorkerLeavesRest(c, s, k, r);
  }

  lemma WorkerLeavesRest(c: Config, s: State, k: nat, r: Result)
    requires Inv(c, s) && Enabled(c, s, Work(k, r))
    ensures var s' := AdvanceWorker(c, s, k, r);
            && |s'.workers| == |s'.results| == |s'.writes| == |s'.sends| == c.n
            && s'.loop == s.loop && s'.leaked == s.leaked && s'.sem <= s.sem && s'.wg <= s.wg
  {
  }

  /** Starting a goroutine counts it in, and nothing else changes the goroutines. */
  lemma SpawnCounts(c: Config, s: State, i: nat)
    requires Inv(c, s) && s.loop == Recheck(i)
    ensures var t := s.workers[i := Spawned];
            && Count(t, ALIVE) == Count(s.workers, ALIVE) + 1 && Count(t, HOLDS) == Count(s.workers, HOLDS) + 1
            && Count(t, SUCCEEDED) == Count(s.workers, SUCCEEDED)
  {
    assert SlotRight(c, s, i);
    WorkersUpdated(s, i, Spawned);
  }

  lemma LoopKeepsCounts(c: Config, s: State, yes: bool)
    requires Inv(c, s) && Enabled(c, s, Advance(yes))
    ensures var s' := AdvanceLoop(c, s, yes);
            && s'.wg == Count(s'.workers, ALIVE)
            && s'.sem == Count(s'.workers, HOLDS) + (if s'.loop.Recheck? then 1 else 0) + s'.leaked
            && s'.okReturns == Count(s'.workers, SUCCEEDED)
  {
    match s.loop
    case Recheck(i) => SpawnCounts(c, s, i);
    case _ =>
  }

  lemma LoopKeepsShape(c: Config, s: State, yes: bool)
    requires Inv(c, s) && Enabled(c, s, Advance(yes))
    ensures var s' := AdvanceLoop(c, s, yes);
            && |s'.workers| == |s'.results| == |s'.writes| == |s'.sends| == c.n
            && (s'.loop.Throttle? || s'.loop.Select? || s'.loop.Recheck? ==> s'.loop.i < c.n)
            && (s'.loop.Top? || s'.loop.Fill? ==> s'.loop.i <= c.n)
            && (s'.loop.Fill? ==> s'.cancelled)
            && (s'.leaked > 0 ==> s'.loop.Fill? || s'.loop.Waiting? || s'.loop.Returned?)
            && s'.sem <= c.Capacity()
            && (s'.loop.Returned? ==> s'.wg == 0)
  {
  }

  /** The loop writes the slot it stands at, and hands the others on as they were. */
  lemma LoopKeepsSlots(c: Config, s: State, yes: bool, j: nat)
    requires Inv(c, s) && Enabled(c, s, Advance(yes)) && j < c.n
    ensures SlotRight(c, AdvanceLoop(c, s, yes), j)
  {
    assert SlotRight(c, s, j);
  }

  lemma LoopKeepsInv(c: Config, s: State, yes: bool)
    requires Inv(c, s) && Enabled(c, s, Advance(yes))
    ensures Inv(c, AdvanceLoop(c, s, yes))
  {
    var s' := AdvanceLoop(c, s, yes);
    LoopKeepsCounts(c, s, yes);
    LoopKeepsShape(c, s, yes);
    ShapedFromCounts(c, s');
    forall j | 0 <= j < c.n ensures SlotRight(c, s', j) {
      LoopKeepsSlots(c, s, yes, j);
    }
  }

  // ---------------------------------------------------------------- every schedule

  /** The state a schedule leads to. */
  ghost function After(c: Config, acts: seq<Action>): State {
    if acts == [] then Init(c)
    else
      var s, a := After(c, acts[..|acts| - 1]), acts[|acts| - 1];
      if Shaped(c, s) && Enabled(c, s, a) then Step(c, s, a) else s
  }

  /** Each action of the schedule was possible when it came. */
  ghost predicate Legal(c: Config, acts: seq<Action>) {
    acts == [] || (Legal(c, acts[..|acts| - 1]) && Enabled(c, After(c, acts[..|acts| - 1]), acts[|acts| - 1]))
  }

  lemma StepKeepsInv(c: Config, s: State, a: Action)
    requires Inv(c, s) && Enabled(c, s, a)
    ensures Inv(c, Step(c, s, a))
  {
    match a
    case Cancel =>
      forall j | 0 <= j < c.n ensures SlotRight(c, Step(c, s, a), j) {
        assert SlotRight(c, s, j);
      }
    case Advance(yes) => LoopKeepsInv(c, s, yes);
    case Work(k, r) => WorkerKeepsInv(c, s, k, r);
  }

  lemma {:induction false} Reachable(c: Config, acts: seq<Action>)
    requires Legal(c, acts)
    ensures Inv(c, After(c, acts))
  {
    if acts == [] {
      InitInv(c);
    } else {
      Reachable(c, acts[..|acts| - 1]);
      StepKeepsInv(c, After(c, acts[..|acts| - 1]), acts[|acts| - 1]);
    }
  }

  /** At every moment of every schedule: no more sends in flight than the limit, no payload sent twice,
      no slot written twice, whoever writes it. */
  lemma Safety(c: Config, acts: seq<Action>)
    requires Legal(c, acts)
    ensures var s := After(c, acts);
            && Count(s.workers, SENDING) <= c.Capacity()
            && |s.sends| == |s.writes| == c.n
            && (forall k | 0 <= k < c.n :: s.sends[k] <= 1 && s.writes[k] <= 1)
  {
    Reachable(c, acts);
    var s := After(c, acts);
    CountMono(s.workers, s.workers, SENDING, HOLDS);
    forall k | 0 <= k < c.n ensures s.sends[k] <= 1 && s.writes[k] <= 1 {
      assert SlotRight(c, s, k);
    }
  }

  /** When the dispatcher returns, every slot has been written exactly once, an unsent payload's slot holds
      the throttle's or the context's error, and the slots without an error are as many as the sends that returned none. */
  lemma Completion(c: Config, acts: seq<Action>)
    requires Legal(c, acts) && After(c, acts).loop.Returned?
    ensures var s := After(c, acts);
            && |s.results| == |s.sends| == |s.writes| == |s.workers| == c.n
            && (forall k | 0 <= k < c.n :: s.writes[k] == 1)
            && (forall k | 0 <= k < c.n && s.sends[k] == 0 :: Refused(c, s, k))
            && (forall k | 0 <= k < c.n && s.sends[k] != 0 :: s.workers[k] == Done(s.results[k]))
            && Count(s.results, NO_ERROR) == s.okReturns
  {
    Reachable(c, acts);
    var s := After(c, acts);
    forall k | 0 <= k < c.n
      ensures s.writes[k] == 1
      ensures s.sends[k] == 0 ==> Refused(c, s, k)
      ensures s.sends[k] != 0 ==> s.workers[k] == Done(s.results[k])
      ensures NO_ERROR(s.results[k]) == SUCCEEDED(s.workers[k])
    {
      assert SlotRight(c, s, k) && !Alive(s.workers[k]);
    }
    CountSame(s.results, s.workers, NO_ERROR, SUCCEEDED);
  }

  /** The limit of sends in flight in numbers: the one asked for, or 256. */
  lemma InFlightBound(c: Config, acts: seq<Action>)
    requires Legal(c, acts)
    ensures Count(After(c, acts).workers, SENDING) <= if c.maxInFlight >= 1 then c.maxInFlight else 256
  {
    Safety(c, acts);
  }

  // ---------------------------------------------------------------- why a slot holds what it holds

  /** At some moment of the schedule the throttle was asked for payload `k` and gave this answer. */
  ghost predicate Answered(c: Config, acts: seq<Action>, k: nat, yes: bool) {
    acts != []
    && (Answered(c, acts[..|acts| - 1], k, yes)
        || (acts[|acts| - 1] == Advance(yes) && After(c, acts[..|acts| - 1]).loop == Throttle(k)))
  }

  /** At some moment of the schedule the send of payload `k` returned `r`. */
  ghost predicate SendReturned(c: Config, acts: seq<Action>, k: nat, r: Result) {
    acts != []
    && (SendReturned(c, acts[..|acts| - 1], k, r)
        || (acts[|acts| - 1] == Work(k, r)
            && var s := After(c, acts[..|acts| - 1]); k < |s.workers| && s.workers[k].Sending?))
  }

  /** What the answers of the throttle made of one payload. */
  ghost predicate Told(c: Config, s: State, k: nat, granted: bool, refused: bool)
    requires k < |s.workers| && k < |s.results|
  {
    && (refused ==> !granted && k < Frontier(c, s) && s.workers[k].Unborn? && s.results[k] == Result(k, "", DeadlineExceeded))
    && (granted ==> (s.loop in {Select(k), Recheck(k)}) || k < Frontier(c, s) || s.loop == Fill(k))
    && (s.workers[k].Unborn? && k < Frontier(c, s) && !refused ==> s.results[k] == Result(k, "", ContextEnded) && s.cancelled)
    && (!s.workers[k].Unborn? || s.loop in {Select(k), Recheck(k)} ==> granted)
  }

  lemma ToldKept(c: Config, s: State, a: Action, k: nat, granted: bool, refused: bool)
    requires Inv(c, s) && Enabled(c, s, a) && k < c.n && c.throttled && Told(c, s, k, granted, refused)
    ensures var s' := Step(c, s, a);
            && k < |s'.workers| && k < |s'.results|
            && Told(c, s', k, granted || (s.loop == Throttle(k) && a == Advance(true)),
                    refused || (s.loop == Throttle(k) && a == Advance(false)))
  {
    assert SlotRight(c, s, k);
    match a
    case Cancel =>
    case Work(j, r) => ToldWork(c, s, j, r, k, granted, refused);
    case Advance(yes) => ToldAdvance(c, s, yes, k, granted, refused);
  }

  lemma ToldWork(c: Config, s: State, j: nat, r: Result, k: nat, granted: bool, refused: bool)
    requires Inv(c, s) && Enabled(c, s, Work(j, r)) && k < c.n && Told(c, s, k, granted, refused)
    ensures var s' := AdvanceWorker(c, s, j, r); k < |s'.workers| && k < |s'.results| && Told(c, s', k, granted, refused)
  {
    assert SlotRight(c, s, k);
  }

  lemma ToldAdvance(c: Config, s: State, yes: bool, k: nat, granted: bool, refused: bool)
    requires Inv(c, s) && Enabled(c, s, Advance(yes)) && k < c.n && c.throttled && Told(c, s, k, granted, refused)
    ensures var s' := AdvanceLoop(c, s, yes);
            && k < |s'.workers| && k < |s'.results|
            && Told(c, s', k, granted || (s.loop == Throttle(k) && yes), refused || (s.loop == Throttle(k) && !yes))
  {
    assert SlotRight(c, s, k);
  }

  lemma {:induction false} ToldReachable(c: Config, acts: seq<Action>, k: nat)
    requires Legal(c, acts) && c.throttled && k < c.n
    ensures Inv(c, After(c, acts)) && Told(c, After(c, acts), k, Answered(c, acts, k, true), Answered(c, acts, k, false))
  {
    Reachable(c, acts);
    if acts != [] {
      var pre := acts[..|acts| - 1];
      ToldReachable(c, pre, k);
      ToldKept(c, After(c, pre), acts[|acts| - 1], k, Answered(c, pre, k, true), Answered(c, pre, k, false));
    }
  }

  /** Behind a throttle, a payload is sent only after the throttle granted it; and when the dispatcher returns, the
      payloads not sent are told apart exactly: refused by the throttle, or overtaken by the end of the context. */
  lemma ThrottleDecides(c: Config, acts: seq<Action>, k: nat)
    requires Legal(c, acts) && c.throttled && k < c.n
    ensures var s := After(c, acts);
            && k < |s.sends| && k < |s.results|
            && (s.sends[k] == 1 ==> Answered(c, acts, k, true))
            && (Answered(c, acts, k, false) ==> s.sends[k] == 0)
            && (s.loop.Returned? && s.sends[k] == 0
                ==> if Answered(c, acts, k, false) then s.results[k] == Result(k, "", DeadlineExceeded)
                    else s.results[k] == Result(k, "", ContextEnded) && s.cancelled)
  {
    ToldReachable(c, acts, k);
    assert SlotRight(c, After(c, acts), k);
    ReturnedMeans(c, After(c, acts), k);
  }

  lemma ReturnedMeans(c: Config, s: State, k: nat)
    requires k < c.n && Inv(c, s)
    ensures s.loop.Returned? ==> s.workers[k].Unborn? || s.workers[k].Done?
  {
  }

  /** A slot written by a goroutine holds what its own send returned. */
  lemma {:induction false} SlotIsReturn(c: Config, acts: seq<Action>, k: nat)
    requires Legal(c, acts) && k < c.n
    ensures var s := After(c, acts);
            k < |s.workers| && (s.workers[k].Sent? || HasWritten(s.workers[k]) ==> SendReturned(c, acts, k, s.workers[k].r))
  {
    Reachable(c, acts);
    if acts != [] {
      var pre := acts[..|acts| - 1];
      SlotIsReturn(c, pre, k);
      Reachable(c, pre);
      StepReturns(c, After(c, pre), acts[|acts| - 1], k);
    }
  }

  lemma StepReturns(c: Config, s: State, a: Action, k: nat)
    requires Inv(c, s) && Enabled(c, s, a) && k < c.n
    ensures var w, w' := s.workers[k], Step(c, s, a).workers[k];
            w'.Sent? || HasWritten(w') ==>
              ((w.Sent? || HasWritten(w)) && w.r == w'.r) || (w.Sending? && a == Work(k, w'.r))
  {
    assert SlotRight(c, s, k);
  }

  /** When the dispatcher returns, each payload sent has in its slot what its own send returned. */
  lemma SentSlots(c: Config, acts: seq<Action>, k: nat)
    requires Legal(c, acts) && After(c, acts).loop.Returned? && k < c.n
    ensures var s := After(c, acts);
            |s.results| == |s.sends| == c.n && (s.sends[k] == 1 ==> SendReturned(c, acts, k, s.results[k]))
  {
    SlotIsReturn(c, acts, k);
    Completion(c, acts);
  }

  /** Once the context has ended, no payload is started any more and no new payload is put to the throttle: compare
      any schedule with its beginning up to some moment after the cancellation. */
  lemma {:induction false} CancelStops(c: Config, acts: seq<Action>, n: nat, k: nat)
    requires Legal(c, acts) && n <= |acts| && After(c, acts[..n]).cancelled && k < c.n
    ensures Calmer(After(c, acts[..n]), After(c, acts), k)
  {
    if n == |acts| {
      assert acts[..n] == acts;
    } else {
      var pre := acts[..|acts| - 1];
      assert pre[..n] == acts[..n];
      CancelStops(c, pre, n, k);
      Reachable(c, pre);
      CancelStopsStep(c, After(c, pre), acts[|acts| - 1], k);
    }
  }

  /** What the end of the context leaves of the plans for one payload. */
  predicate Calmer(s: State, t: State, k: nat) {
    && t.cancelled
    && (k < |s.workers| && s.workers[k].Unborn? ==> k < |t.workers| && t.workers[k].Unborn?)
    && (t.loop == Throttle(k) ==> s.loop == Throttle(k))
  }

  lemma CancelStopsStep(c: Config, s: State, a: Action, k: nat)
    requires Inv(c, s) && Enabled(c, s, a) && s.cancelled && k < c.n
    ensures Calmer(s, Step(c, s, a), k)
  {
  }

  // ---------------------------------------------------------------- progress

  function WorkerWeight(w: Worker): nat {
    match w
    case Spawned => 5
    case Sending => 4
    case Sent(_) => 3
    case Wrote(_) => 2
    case Released(_) => 1
    case _ => 0
  }

  function WorkLeft(ws: seq<Worker>): nat {
    if ws == [] then 0 else WorkLeft(ws[..|ws| - 1]) + WorkerWeight(ws[|ws| - 1])
  }

  function LoopLeft(c: Config, l: Loop): int {
    match l
    case Top(i) => 10 * (c.n - i) + 3
    case Throttle(i) => 10 * (c.n - i) + 2
    case Select(i) => 10 * (c.n - i) + 1
    case Recheck(i) => 10 * (c.n - i)
    case Fill(i) => c.n - i + 2
    case Waiting => 1
    case Returned => 0
  }

  /** An upper bound on the number of steps still to come. */
  function Measure(c: Config, s: State): int {
    LoopLeft(c, s.loop) + WorkLeft(s.workers) + (if s.cancelled then 0 else 1)
  }

  lemma {:induction false} WorkUpdated(ws: seq<Worker>, k: nat, w: Worker)
    requires k < |ws|
    ensures WorkLeft(ws[k := w]) == WorkLeft(ws) - WorkerWeight(ws[k]) + WorkerWeight(w)
  {
    var m := |ws| - 1;
    if k == m {
      assert ws[k := w][..m] == ws[..m];
    } else {
      assert ws[k := w][..m] == ws[..m][k := w];
      WorkUpdated(ws[..m], k, w);
    }
  }

  lemma StepDecreases(c: Config, s: State, a: Action)
    requires Inv(c, s) && Enabled(c, s, a)
    ensures Measure(c, Step(c, s, a)) < Measure(c, s)
  {
    match a
    case Cancel =>
    case Work(k, r) => WorkDecreases(c, s, k, r);
    case Advance(yes) => LoopDecreases(c, s, yes);
  }

  lemma WorkDecreases(c: Config, s: State, k: nat, r: Result)
    requires Inv(c, s) && Enabled(c, s, Work(k, r))
    ensures Measure(c, AdvanceWorker(c, s, k, r)) < Measure(c, s)
  {
    var w := AdvanceWorker(c, s, k, r).workers[k];
    WorkUpdated(s.workers, k, w);
    assert AdvanceWorker(c, s, k, r).workers == s.workers[k := w];
  }

  lemma LoopDecreases(c: Config, s: State, yes: bool)
    requires Inv(c, s) && Enabled(c, s, Advance(yes))
    ensures Measure(c, AdvanceLoop(c, s, yes)) < Measure(c, s)
  {
    match s.loop
    case Recheck(i) =>
      assert SlotRight(c, s, i);
      WorkUpdated(s.workers, i, Spawned);
    case _ =>
  }

  lemma {:induction false} NothingLeft(ws: seq<Worker>)
    ensures (forall k | 0 <= k < |ws| :: ws[k].Unborn?) ==> WorkLeft(ws) == 0
  {
    if ws != [] {
      NothingLeft(ws[..|ws| - 1]);
    }
  }

  /** Every schedule is finite: it has at most ten steps per payload and four more. */
  lemma {:induction false} Terminates(c: Config, acts: seq<Action>)
    requires Legal(c, acts)
    ensures |acts| + Measure(c, After(c, acts)) <= 10 * c.n + 4
    ensures |acts| <= 10 * c.n + 4
  {
    Reachable(c, acts);
    if acts == [] {
      NothingLeft(Init(c).workers);
    } else {
      var pre := acts[..|acts| - 1];
      Terminates(c, pre);
      Reachable(c, pre);
      StepDecreases(c, After(c, pre), acts[|acts| - 1]);
    }
  }

  /** No schedule gets stuck before the dispatcher returns, even if nobody ever cancels. */
  lemma NoDeadlock(c: Config, acts: seq<Action>) returns (a: Action)
    requires Legal(c, acts) && !After(c, acts).loop.Returned?
    ensures !a.Cancel? && Enabled(c, After(c, acts), a)
  {
    Reachable(c, acts);
    var s := After(c, acts);
    a := Advance(false);
    if s.loop.Select? && s.sem >= c.Capacity() {
      assert Count(s.workers, HOLDS) > 0;
      var k := SomeCounted(s.workers, HOLDS);
      a := Work(k, ZERO);
    } else if s.loop.Waiting? && s.wg > 0 {
      var k := SomeCounted(s.workers, ALIVE);
      a := Work(k, ZERO);
    }
  }

  lemma SomeCounted(ws: seq<Worker>, p: Worker -> bool) returns (k: nat)
    requires Count(ws, p) > 0
    ensures k < |ws| && p(ws[k])
  {
    if forall i | 0 <= i < |ws| :: !p(ws[i]) {
      CountNone(ws, p);
    }
    k :| k < |ws| && p(ws[k]);
  }

  /** The number of requests that count as sent. */
  method CountSuccess(results: seq<Result>) returns (n: nat)
    ensures n == Count(results, NO_ERROR)
  {
    n := 0;
    for i := 0 to |results|
      invariant n == Count(results[..i], NO_ERROR)
    {
      if results[i].err.NoError? {
        n := n + 1;
      }
      assert results[..i + 1][..i] == results[..i];
    }
    assert results[..|results|] == results;
  }
}
