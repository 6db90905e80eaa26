/** The pacing throttle of a preorder run: it spaces the grants of a base limiter and retries its denials.
    Times are nanoseconds. The environment supplies, attempt by attempt, how long each step took, what
    the base limiter answered, and whether the context was cancelled during a pause. */
module Pacing {
  import opened Arith
  import opened Counting
  import opened Wrappers

  const SECOND := 1000000000
  const BACKOFF := 10000000

  datatype Answer = Allow | Deny(reason: string)

  /** One pass of the retry loop. `cutWait` and `cutBackoff` say that the context ended a pause;
      the other fields are the time each step takes beyond what the code asks for. */
  datatype Attempt = Attempt(readDelay: nat, cutWait: bool, waitExtra: nat, callTime: nat,
                             answer: Answer, cutBackoff: bool, backoffExtra: nat)

  datatype Event =
    | Tried
    | Waited(ms: nat)
    | WaitCut
    | Granted(asked: int, at: int)
    | Denied(reason: string)

  datatype Counters = Counters(acquireCalls: nat, allowedCalls: nat, retryCount: nat, waitTotalMs: nat, waitMaxMs: nat,
                               denyGlobal: nat, denySession: nat, denyOther: nat)

  const NO_COUNTS := Counters(0, 0, 0, 0, 0, 0, 0, 0)

  /** What one event adds to the counters. */
  function Bump(c: Counters, e: Event): Counters {
    match e
    case Tried => c.(acquireCalls := c.acquireCalls + 1)
    case Granted(_, _) => c.(allowedCalls := c.allowedCalls + 1)
    case WaitCut => c
    case Waited(ms) => c.(waitTotalMs := c.waitTotalMs + ms, waitMaxMs := if ms <= c.waitMaxMs then c.waitMaxMs else ms)
    case Denied(reason) =>
      var c' := c.(retryCount := c.retryCount + 1);
      if reason == "global" then c'.(denyGlobal := c.denyGlobal + 1)
      else if reason == "session" then c'.(denySession := c.denySession + 1)
      else c'.(denyOther := c.denyOther + 1)
  }

  function Tally(log: seq<Event>): Counters {
    if log == [] then NO_COUNTS else Bump(Tally(log[..|log| - 1]), log[|log| - 1])
  }

  /** The clock, the earliest time of the next grant, and everything that happened so far. */
  datatype Pace = Pace(clock: int, next: Option<int>, counters: Counters, log: seq<Event>) {
    function Note(e: Event): Pace {
      this.(counters := Bump(counters, e), log := log + [e])
    }
  }

  function Start(clock: int): Pace {
    Pace(clock, None, NO_COUNTS, [])
  }

  datatype Outcome = Yes | No | Unfinished

  /** Reading the clock; the first reading ever opens the schedule. */
  function Read(p: Pace, a: Attempt): Pace {
    var now := p.clock + a.readDelay;
    p.Note(Tried).(clock := now, next := if p.next.None? then Some(now) else p.next)
  }

  /** Waiting for the scheduled time, if it lies ahead; false when the context ended the wait. */
  function Pause(p: Pace, a: Attempt): (Pace, bool)
    requires p.next.Some?
  {
    if p.clock >= p.next.value then (p, true)
    else
      var q := p.Note(Waited((p.next.value - p.clock) / 1000000));
      if a.cutWait then (q.Note(WaitCut).(clock := p.clock + a.waitExtra), false)
      else (q.(clock := p.next.value + a.waitExtra), true)
  }

  /** Asking the base limiter: a grant moves the schedule on, a denial leaves it and backs off. */
  function Ask(p: Pace, interval: nat, a: Attempt): (Pace, Outcome) {
    var at := p.clock + a.callTime;
    match a.answer
    case Allow => (p.Note(Granted(p.clock, at)).(clock := at, next := Some(at + interval)), Yes)
    case Deny(reason) =>
      var q := p.Note(Denied(reason));
      if a.cutBackoff then (q.(clock := at + a.backoffExtra), No)
      else (q.(clock := at + BACKOFF + a.backoffExtra), Unfinished)
  }

  /** One pass: the state after it and, unless the loop goes round again, the answer. */
  function Pass(p: Pace, interval: nat, a: Attempt): (Pace, Outcome) {
    var (q, ready) := Pause(Read(p, a), a);
    if ready then Ask(q, interval, a) else (q, No)
  }

  /** The whole retry loop over the attempts the environment supplies. */
  function Drive(p: Pace, interval: nat, attempts: seq<Attempt>): (Pace, Outcome)
    decreases |attempts|
  {
    if attempts == [] then (p, Unfinished)
    else
      var (p', o) := Pass(p, interval, attempts[0]);
      if o == Unfinished then Drive(p', interval, attempts[1..]) else (p', o)
  }

  function Waits(log: seq<Event>): seq<int> {
    if log == [] then []
    else Waits(log[..|log| - 1]) + (var e := log[|log| - 1]; if e.Waited? then [e.ms] else [])
  }

  function Grants(log: seq<Event>): seq<Event>
    ensures forall i | 0 <= i < |Grants(log)| :: Grants(log)[i].Granted?
  {
    if log == [] then []
    else Grants(log[..|log| - 1]) + (var e := log[|log| - 1]; if e.Granted? then [e] else [])
  }

  const IsTried := (e: Event) => e.Tried?
  const IsDenied := (e: Event) => e.Denied?
  const IsWaitCut := (e: Event) => e.WaitCut?

  function DeniedFor(reason: string): Event -> bool {
    (e: Event) => e == Denied(reason)
  }

  /** `m` is the maximum of `s`, or zero when there is nothing larger. */
  ghost predicate IsMax(m: int, s: seq<int>) {
    && (forall i | 0 <= i < |s| :: s[i] <= m)
    && (m == 0 || m in s)
  }

  class PacingThrottle {
    const hasBase: bool
    const interval: nat
    var next: Option<int>
    var counters: Counters
    var clock: int
    ghost var log: seq<Event>

    ghost function Model(): Pace
      reads this
    {
      Pace(clock, next, counters, log)
    }

    constructor (hasBase: bool, rps: int, start: int)
      ensures Model() == Start(start)
      ensures this.hasBase == hasBase
      ensures interval == if !hasBase || rps <= 0 then 0 else 1000000000 / rps
    {
      this.hasBase := hasBase;
      interval := if !hasBase || rps <= 0 then 0 else SECOND / rps;
      next, counters := None, NO_COUNTS;
      clock, log := start, [];
    }

    method Note(e: Event)
      modifies this`counters, this`log
      ensures Model() == old(Model()).Note(e)
    {
      match e {
        case Tried => counters := counters.(acquireCalls := counters.acquireCalls + 1);
        case Granted(_, _) => counters := counters.(allowedCalls := counters.allowedCalls + 1);
        case WaitCut =>
        case Waited(ms) =>
          counters := counters.(waitTotalMs := counters.waitTotalMs + ms);
          if ms > counters.waitMaxMs {
            counters := counters.(waitMaxMs := ms);
          }
        case Denied(reason) =>
          match reason {
            case "global" => counters := counters.(denyGlobal := counters.denyGlobal + 1);
            case "session" => counters := counters.(denySession := counters.denySession + 1);
            case _ => counters := counters.(denyOther := counters.denyOther + 1);
          }
          counters := counters.(retryCount := counters.retryCount + 1);
      }
      log := log + [e];
    }

    /** One pass of the retry loop. */
    method Once(a: Attempt) returns (outcome: Outcome)
      modifies this
      ensures (Model(), outcome) == Pass(old(Model()), interval, a)
    {
      Note(Tried);
      clock := clock + a.readDelay;
      if next == None {
        next := Some(clock);
      }
      assert Model() == Read(old(Model()), a);
      label read:
      if clock < next.value {
        var wait := next.value - clock;
        Note(Waited(wait / 1000000));
        if a.cutWait {
          Note(WaitCut);
          clock := clock + a.waitExtra;
          return No;
        }
        clock := clock + wait + a.waitExtra;
      }
      assert Model() == Pause(old@read(Model()), a).0;
      label ready:
      var asked := clock;
      clock := clock + a.callTime;
      if a.answer.Allow? {
        Note(Granted(asked, clock));
        next := Some(clock + interval);
        return Yes;
      }
      Note(Denied(a.answer.reason));
      clock := clock + (if a.cutBackoff then 0 else BACKOFF) + a.backoffExtra;
      outcome := if a.cutBackoff then No else Unfinished;
    }

    /** Without a base limiter or a positive interval every call is granted at once and nothing is counted. */
    method Acquire(attempts: seq<Attempt>) returns (outcome: Outcome)
      modifies this
      ensures !hasBase || interval == 0 ==> outcome == Yes && Model() == old(Model())
      ensures hasBase && interval > 0 ==> (Model(), outcome) == Drive(old(Model()), interval, attempts)
    {
      if !hasBase || interval == 0 {
        return Yes;
      }
      var i := 0;
      outcome := Unfinished;
      while i < |attempts|
        invariant 0 <= i <= |attempts|
        invariant Drive(old(Model()), interval, attempts) == Drive(Model(), interval, attempts[i..])
      {
        assert attempts[i..][0] == attempts[i] && attempts[i..][1..] == attempts[i + 1..];
        outcome := Once(attempts[i]);
        if outcome != Unfinished {
          return;
        }
        i := i + 1;
      }
      assert attempts[i..] == [];
      outcome := Unfinished;
    }
  }

  // ---------------------------------------------------------------- laws of a whole run

  /** Each grant is asked for no earlier than one interval after the previous one was given. */
  ghost predicate Spaced(g: seq<Event>, interval: nat) {
    && (forall i | 0 <= i < |g| :: g[i].Granted? && g[i].asked <= g[i].at)
    && (forall i, j | 0 <= i < |g| && j == i + 1 < |g| :: g[j].asked >= g[i].at + interval)
  }

  ghost predicate OnPace(p: Pace, interval: nat) {
    var g := Grants(p.log);
    && Spaced(g, interval)
    && (g == [] ==> p.next.None? || p.next.value <= p.clock)
    && (g != [] ==> p.next == Some(g[|g| - 1].at + interval) && g[|g| - 1].at <= p.clock)
  }

  /** The counters add up the history. */
  ghost predicate Tallied(p: Pace) {
    p.counters == Tally(p.log)
  }

  /** Passes begun and not yet ended in a grant, a retry or a cancelled wait. */
  ghost function Open(p: Pace): int {
    p.counters.acquireCalls - p.counters.allowedCalls - p.counters.retryCount - Count(p.log, IsWaitCut)
  }

  lemma Logged(log: seq<Event>, e: Event)
    ensures Grants(log + [e]) == Grants(log) + (if e.Granted? then [e] else [])
  {
    assert (log + [e])[..|log|] == log;
  }

  lemma NoteTallied(p: Pace, e: Event)
    requires Tallied(p)
    ensures Tallied(p.Note(e))
    ensures Open(p.Note(e)) == Open(p) + (if e.Tried? then 1 else if e.Waited? then 0 else -1)
  {
    assert (p.log + [e])[..|p.log|] == p.log;
  }

  lemma SpacedPush(g: seq<Event>, interval: nat, e: Event)
    requires Spaced(g, interval) && e.Granted? && e.asked <= e.at
    requires g != [] ==> g[|g| - 1].Granted? && e.asked >= g[|g| - 1].at + interval
    ensures Spaced(g + [e], interval)
  {
    var h := g + [e];
    forall i, j | 0 <= i < |h| && j == i + 1 < |h| ensures h[i].Granted? && h[j].Granted? && h[j].asked >= h[i].at + interval {
      assert h[i] == g[i];
      if j < |g| {
        assert h[j] == g[j];
      }
    }
  }

  lemma GrantKeepsPace(q: Pace, interval: nat, e: Event)
    requires OnPace(q, interval) && q.next.Some? && q.next.value <= q.clock
    requires e.Granted? && e.asked == q.clock <= e.at
    ensures OnPace(q.Note(e).(clock := e.at, next := Some(e.at + interval)), interval)
  {
    Logged(q.log, e);
    SpacedPush(Grants(q.log), interval, e);
  }

  /** Anything but a grant, later, leaves the pace as it is. */
  lemma QuietKeepsPace(q: Pace, interval: nat, e: Event, clock: int)
    requires OnPace(q, interval) && !e.Granted? && q.clock <= clock
    ensures OnPace(q.Note(e).(clock := clock), interval)
  {
    Logged(q.log, e);
    assert Grants(q.log) + [] == Grants(q.log);
  }

  lemma ReadKeepsPace(p: Pace, interval: nat, a: Attempt)
    requires OnPace(p, interval)
    ensures OnPace(Read(p, a), interval)
  {
    Logged(p.log, Tried);
    assert Grants(p.log) + [] == Grants(p.log);
  }

  lemma PauseKeepsPace(r: Pace, interval: nat, a: Attempt)
    requires OnPace(r, interval) && r.next.Some?
    ensures var (q, ready) := Pause(r, a);
            && OnPace(q, interval)
            && q.next.Some? && (ready ==> q.next.value <= q.clock)
  {
    if r.clock < r.next.value {
      var w := Waited((r.next.value - r.clock) / 1000000);
      var q := r.Note(w);
      if a.cutWait {
        QuietKeepsPace(r, interval, w, r.clock);
        QuietKeepsPace(q, interval, WaitCut, r.clock + a.waitExtra);
      } else {
        QuietKeepsPace(r, interval, w, r.next.value + a.waitExtra);
      }
    }
  }

  lemma AskKeepsPace(q: Pace, interval: nat, a: Attempt)
    requires OnPace(q, interval) && q.next.Some? && q.next.value <= q.clock
    ensures OnPace(Ask(q, interval, a).0, interval)
  {
    var e := Reply(q, a);
    AskParts(q, interval, a);
    if e.Granted? {
      GrantKeepsPace(q, interval, e);
    } else {
      QuietKeepsPace(q, interval, e, Ask(q, interval, a).0.clock);
    }
  }

  /** What asking the base limiter records. */
  function Reply(q: Pace, a: Attempt): Event {
    match a.answer
    case Allow => Granted(q.clock, q.clock + a.callTime)
    case Deny(reason) => Denied(reason)
  }

  lemma AskParts(q: Pace, interval: nat, a: Attempt)
    ensures var (r, e) := (Ask(q, interval, a).0, Reply(q, a));
            && r == q.Note(e).(clock := r.clock, next := r.next)
            && q.clock <= r.clock
            && (e.Granted? ==> r.clock == e.at && r.next == Some(e.at + interval))
            && (!e.Granted? ==> r.next == q.next)
  {
  }

  lemma PassTallied(p: Pace, interval: nat, a: Attempt)
    requires Tallied(p)
    ensures Tallied(Pass(p, interval, a).0) && Open(Pass(p, interval, a).0) == Open(p)
  {
    NoteTallied(p, Tried);
    PauseTallied(Read(p, a), a);
    var (q, ready) := Pause(Read(p, a), a);
    if ready {
      match a.answer
      case Allow => NoteTallied(q, Granted(q.clock, q.clock + a.callTime));
      case Deny(reason) => NoteTallied(q, Denied(reason));
    }
  }

  lemma PauseTallied(r: Pace, a: Attempt)
    requires Tallied(r) && r.next.Some?
    ensures var (q, ready) := Pause(r, a); Tallied(q) && Open(q) == Open(r) - (if ready then 0 else 1)
  {
    if r.clock < r.next.value {
      var w := Waited((r.next.value - r.clock) / 1000000);
      NoteTallied(r, w);
      NoteTallied(r.Note(w), WaitCut);
    }
  }

  lemma PassKeepsPace(p: Pace, interval: nat, a: Attempt)
    requires OnPace(p, interval)
    ensures OnPace(Pass(p, interval, a).0, interval)
  {
    ReadKeepsPace(p, interval, a);
    PauseKeepsPace(Read(p, a), interval, a);
    var (q, ready) := Pause(Read(p, a), a);
    if ready {
      AskKeepsPace(q, interval, a);
    }
  }

  lemma {:induction false} DriveKeeps(p: Pace, interval: nat, attempts: seq<Attempt>)
    requires OnPace(p, interval) && Tallied(p)
    ensures var q := Drive(p, interval, attempts).0; OnPace(q, interval) && Tallied(q) && Open(q) == Open(p)
    decreases |attempts|
  {
    if attempts != [] {
      PassKeepsPace(p, interval, attempts[0]);
      PassTallied(p, interval, attempts[0]);
      var (q, o) := Pass(p, interval, attempts[0]);
      if o == Unfinished {
        DriveKeeps(q, interval, attempts[1..]);
      }
    }
  }

  lemma PassGrants(p: Pace, interval: nat, a: Attempt)
    ensures |Grants(Pass(p, interval, a).0.log)| == |Grants(p.log)| + (if Pass(p, interval, a).1.Yes? then 1 else 0)
  {
    var r := Read(p, a);
    Logged(p.log, Tried);
    if r.clock < r.next.value {
      var w := Waited((r.next.value - r.clock) / 1000000);
      Logged(r.log, w);
      Logged(r.log + [w], WaitCut);
    }
    var (q, ready) := Pause(r, a);
    if ready {
      AskGrants(q, interval, a);
    }
  }

  lemma AskGrants(q: Pace, interval: nat, a: Attempt)
    ensures |Grants(Ask(q, interval, a).0.log)| == |Grants(q.log)| + (if Ask(q, interval, a).1.Yes? then 1 else 0)
  {
    match a.answer
    case Allow => Logged(q.log, Granted(q.clock, q.clock + a.callTime));
    case Deny(reason) => Logged(q.log, Denied(reason));
  }

  /** A call answers yes exactly when it recorded a grant, and it records at most one. */
  lemma {:induction false} YesMeansGranted(p: Pace, interval: nat, attempts: seq<Attempt>)
    ensures var (q, o) := Drive(p, interval, attempts);
            |Grants(q.log)| == |Grants(p.log)| + (if o.Yes? then 1 else 0)
    decreases |attempts|
  {
    if attempts != [] {
      PassGrants(p, interval, attempts[0]);
      var (q, o) := Pass(p, interval, attempts[0]);
      if o == Unfinished {
        YesMeansGranted(q, interval, attempts[1..]);
      }
    }
  }

  // ---------------------------------------------------------------- what each pass does, and when a call gives up

  /** When the base limiter is asked: at once when the schedule allows, else when it does, plus what the pause took
      beyond that. The first reading ever opens the schedule. */
  function AskedAt(p: Pace, a: Attempt): int {
    var now := p.clock + a.readDelay;
    if p.next.None? || p.next.value <= now then now else p.next.value + a.waitExtra
  }

  predicate MustWait(p: Pace, a: Attempt) {
    p.next.Some? && p.clock + a.readDelay < p.next.value
  }

  /** The history a pass begins with: the try, and the wait in whole milliseconds. */
  function Opening(p: Pace, a: Attempt): seq<Event> {
    [Tried] + (if MustWait(p, a) then [Waited((p.next.value - (p.clock + a.readDelay)) / 1000000)] else [])
  }

  /** A pass that the context cuts while it waits asks nothing and answers no. */
  lemma CutWaitPass(p: Pace, interval: nat, a: Attempt)
    requires MustWait(p, a) && a.cutWait
    ensures var (q, o) := Pass(p, interval, a);
            && o == No && q.log == p.log + Opening(p, a) + [WaitCut]
            && q.next == p.next && q.clock == p.clock + a.readDelay + a.waitExtra
  {
    assert p.log + Opening(p, a) + [WaitCut] == p.log + [Tried] + [Waited((p.next.value - (p.clock + a.readDelay)) / 1000000)] + [WaitCut];
  }

  lemma ReadyPass(p: Pace, a: Attempt)
    requires !(MustWait(p, a) && a.cutWait)
    ensures var (q, ready) := Pause(Read(p, a), a);
            && ready && q.log == p.log + Opening(p, a) && q.clock == AskedAt(p, a)
            && q.next == Some(if p.next.None? then p.clock + a.readDelay else p.next.value)
  {
    if MustWait(p, a) {
      assert p.log + Opening(p, a) == p.log + [Tried] + [Waited((p.next.value - (p.clock + a.readDelay)) / 1000000)];
    } else {
      assert p.log + Opening(p, a) == p.log + [Tried];
    }
  }

  /** A grant answers yes, and the next is scheduled one interval after it. */
  lemma AllowedPass(p: Pace, interval: nat, a: Attempt)
    requires !(MustWait(p, a) && a.cutWait) && a.answer.Allow?
    ensures var (q, o) := Pass(p, interval, a);
            var at := AskedAt(p, a) + a.callTime;
            o == Yes && q.log == p.log + Opening(p, a) + [Granted(AskedAt(p, a), at)] && q.clock == at && q.next == Some(at + interval)
  {
    ReadyPass(p, a);
  }

  /** A denial leaves the schedule alone. Unless the context cuts the pause, which answers no, the next pass begins ten
      milliseconds later, plus what the pause took beyond that. */
  lemma DeniedPass(p: Pace, interval: nat, a: Attempt)
    requires !(MustWait(p, a) && a.cutWait) && a.answer.Deny?
    ensures var (q, o) := Pass(p, interval, a);
            && q.log == p.log + Opening(p, a) + [Denied(a.answer.reason)]
            && q.next == Some(if p.next.None? then p.clock + a.readDelay else p.next.value)
            && o == (if a.cutBackoff then No else Unfinished)
            && q.clock == AskedAt(p, a) + a.callTime + (if a.cutBackoff then 0 else 10000000) + a.backoffExtra
  {
    ReadyPass(p, a);
  }

  predicate Uncut(a: Attempt) {
    !a.cutWait && !a.cutBackoff
  }

  /** How many of its attempts a call uses. */
  function Used(p: Pace, interval: nat, attempts: seq<Attempt>): (n: nat)
    ensures n <= |attempts|
    decreases |attempts|
  {
    if attempts == [] then 0
    else
      var (q, o) := Pass(p, interval, attempts[0]);
      if o == Unfinished then 1 + Used(q, interval, attempts[1..]) else 1
  }

  lemma PassOutcome(p: Pace, interval: nat, a: Attempt)
    ensures Pass(p, interval, a).1 == No ==> a.cutWait || (a.cutBackoff && a.answer.Deny?)
    ensures Pass(p, interval, a).1 == Yes ==> a.answer.Allow?
    ensures Pass(p, interval, a).1 == Unfinished ==> a.answer.Deny? && !a.cutBackoff
  {
    if MustWait(p, a) && a.cutWait {
      CutWaitPass(p, interval, a);
    } else if a.answer.Allow? {
      AllowedPass(p, interval, a);
    } else {
      DeniedPass(p, interval, a);
    }
  }

  /** A call goes round exactly through denials: every attempt it uses but the last was denied. It ends with yes at an
      attempt that was allowed, and with no only at one that was cut; otherwise it has used all its attempts. */
  lemma {:induction false} HowCallsEnd(p: Pace, interval: nat, attempts: seq<Attempt>)
    ensures var (o, n) := (Drive(p, interval, attempts).1, Used(p, interval, attempts));
            && (forall i: nat | i + 1 < n :: attempts[i].answer.Deny? && !attempts[i].cutBackoff)
            && (o == Yes ==> n > 0 && attempts[n - 1].answer.Allow?)
            && (o == No ==> n > 0 && (attempts[n - 1].cutWait || (attempts[n - 1].cutBackoff && attempts[n - 1].answer.Deny?)))
            && (o == Unfinished ==> n == |attempts| && forall i | 0 <= i < n :: attempts[i].answer.Deny?)
    decreases |attempts|
  {
    if attempts != [] {
      var (q, o) := Pass(p, interval, attempts[0]);
      PassOutcome(p, interval, attempts[0]);
      if o == Unfinished {
        var rest := attempts[1..];
        HowCallsEnd(q, interval, rest);
        forall i | 0 < i < |attempts| ensures attempts[i] == rest[i - 1] {
        }
      }
    }
  }

  /** When nothing is cut a call never answers no, and it answers yes exactly when some attempt is allowed. */
  lemma RetriesUntilAllowed(p: Pace, interval: nat, attempts: seq<Attempt>)
    requires forall i | 0 <= i < |attempts| :: Uncut(attempts[i])
    ensures Drive(p, interval, attempts).1 != No
    ensures Drive(p, interval, attempts).1 == Yes <==> exists i :: 0 <= i < |attempts| && attempts[i].answer.Allow?
  {
    var n := Used(p, interval, attempts);
    HowCallsEnd(p, interval, attempts);
    if n > 0 {
      assert Uncut(attempts[n - 1]);
    }
  }

  /** A dispatcher calling Acquire again and again, with any environment for each call. */
  function Calls(start: int, interval: nat, calls: seq<seq<Attempt>>): Pace {
    if calls == [] then Start(start)
    else Drive(Calls(start, interval, calls[..|calls| - 1]), interval, calls[|calls| - 1]).0
  }

  lemma {:induction false} CallsKeep(start: int, interval: nat, calls: seq<seq<Attempt>>)
    ensures var p := Calls(start, interval, calls); OnPace(p, interval) && Tallied(p) && Open(p) == 0
  {
    if calls != [] {
      CallsKeep(start, interval, calls[..|calls| - 1]);
      DriveKeeps(Calls(start, interval, calls[..|calls| - 1]), interval, calls[|calls| - 1]);
    }
  }

  lemma {:induction false} SpacedSpan(g: seq<Event>, interval: nat, i: nat, j: nat)
    requires Spaced(g, interval) && i <= j < |g|
    ensures g[j].asked >= g[i].asked + (j - i) * interval
    decreases j
  {
    if i < j {
      SpacedSpan(g, interval, i, j - 1);
      assert (j - i) * interval == (j - 1 - i) * interval + interval by {
        Distribute(interval, j - 1 - i, 1);
      }
    }
  }

  /** Any k grants of a run span at least k-1 intervals, whatever the base limiter and the clock did. */
  lemma PacingLaw(start: int, interval: nat, calls: seq<seq<Attempt>>, i: nat, j: nat)
    requires i <= j < |Grants(Calls(start, interval, calls).log)|
    ensures var g := Grants(Calls(start, interval, calls).log); g[j].asked - g[i].asked >= (j - i) * interval
  {
    CallsKeep(start, interval, calls);
    SpacedSpan(Grants(Calls(start, interval, calls).log), interval, i, j);
  }

  /** Without a cancelled wait the calls are the grants plus the retries, the retries are the sum of the
      three denial counters, and the two wait counters are the sum and the maximum of the waits. */
  lemma CounterLaw(start: int, interval: nat, calls: seq<seq<Attempt>>)
    ensures var p := Calls(start, interval, calls);
            && p.counters.acquireCalls == p.counters.allowedCalls + p.counters.retryCount + Count(p.log, IsWaitCut)
            && p.counters.allowedCalls == |Grants(p.log)|
            && p.counters.retryCount == p.counters.denyGlobal + p.counters.denySession + p.counters.denyOther
            && p.counters.waitTotalMs == Sum(Waits(p.log))
            && IsMax(p.counters.waitMaxMs, Waits(p.log))
  {
    CallsKeep(start, interval, calls);
    CounterMeaning(Calls(start, interval, calls).log);
    WaitMeaning(Calls(start, interval, calls).log);
  }

  /** What each counter means: a count of passes, grants or denials. */
  lemma {:induction false} CounterMeaning(log: seq<Event>)
    ensures var c := Tally(log);
            && c.acquireCalls == Count(log, IsTried)
            && c.allowedCalls == |Grants(log)|
            && c.retryCount == Count(log, IsDenied) == c.denyGlobal + c.denySession + c.denyOther
            && c.denyGlobal == Count(log, DeniedFor("global"))
            && c.denySession == Count(log, DeniedFor("session"))
  {
    if log != [] {
      CounterMeaning(log[..|log| - 1]);
    }
  }

  /** The wait counters are the sum and the maximum of the recorded waits. */
  lemma {:induction false} WaitMeaning(log: seq<Event>)
    ensures Tally(log).waitTotalMs == Sum(Waits(log)) && IsMax(Tally(log).waitMaxMs, Waits(log))
  {
    if log != [] {
      var e := log[|log| - 1];
      var before := Waits(log[..|log| - 1]);
      WaitMeaning(log[..|log| - 1]);
      if e.Waited? {
        SumPush(before, e.ms);
        MaxPush(Tally(log[..|log| - 1]).waitMaxMs, before, e.ms);
      } else {
        assert Waits(log) == before;
      }
    }
  }

  lemma SumPush(s: seq<int>, x: int)
    ensures Sum(s + [x]) == Sum(s) + x
  {
    assert (s + [x])[..|s|] == s;
  }

  lemma MaxPush(m: int, s: seq<int>, x: nat)
    requires IsMax(m, s)
    ensures IsMax(if x <= m then m else x, s + [x])
  {
    assert (s + [x])[|s|] == x;
  }
}
