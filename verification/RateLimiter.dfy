/** The dual token bucket: a script kept in Redis and the limiter object that calls it.
    Tokens are counted in thousandths, so that refilling per millisecond is exact. */
module RateLimiter {
  import opened Arith
  import opened Counting
  import Decimal

  const EXPIRY_MS := 10000
  const GLOBAL_KEY := "ratelimit:global"

  function SessionKey(sid: string): string {
    "ratelimit:session:" + sid
  }

  lemma KeysDistinct(a: string, b: string)
    ensures SessionKey(a) != GLOBAL_KEY
    ensures a != b ==> SessionKey(a) != SessionKey(b)
  {
    assert SessionKey(a)[10] == 's' && GLOBAL_KEY[10] == 'g';
    assert SessionKey(a)[18..] == a && SessionKey(b)[18..] == b;
  }

  datatype Bucket = Bucket(tokens: int, last: int)

  type Keyspace = map<string, Bucket>

  /** One bucket operation: its keyspace afterwards and whether the token was taken. */
  datatype Taken = Taken(keys: Keyspace, ok: bool)

  function Refilled(keys: Keyspace, key: string, max: int, rate: int, now: int): int {
    if key in keys then Min(max * 1000, keys[key].tokens + (now - keys[key].last) * rate) else max * 1000
  }

  function Take(keys: Keyspace, key: string, max: int, rate: int, now: int, requested: int): Taken {
    var avail := Refilled(keys, key, max, rate, now);
    var ok := avail >= requested * 1000;
    Taken(keys[key := Bucket(if ok then avail - requested * 1000 else avail, now)], ok)
  }

  datatype Limits = Limits(globalMax: int, sessionMax: int) {
    /** What the constructor of the limiter guarantees. */
    predicate Positive() {
      globalMax > 0 && sessionMax > 0
    }

    function MaxOf(key: string): int {
      if key == GLOBAL_KEY then globalMax else sessionMax
    }
  }

  datatype Verdict = Granted | DeniedGlobal | DeniedSession

  datatype ScriptResult = ScriptResult(keys: Keyspace, globalTook: bool, sessionTook: bool, verdict: Verdict)

  /** The two-bucket sequence: the global token first, and no refund when the session bucket refuses. */
  function Script(keys: Keyspace, lim: Limits, sid: string, now: int): ScriptResult {
    var g := Take(keys, GLOBAL_KEY, lim.globalMax, lim.globalMax, now, 1);
    if !g.ok then ScriptResult(g.keys, false, false, DeniedGlobal)
    else
      var s := Take(g.keys, SessionKey(sid), lim.sessionMax, lim.sessionMax, now, 1);
      ScriptResult(s.keys, true, s.ok, if s.ok then Granted else DeniedSession)
  }

  // ---------------------------------------------------------------- the imperative form

  datatype LuaValue = Number(n: int) | Text(s: string) | Nothing

  function Reply(v: Verdict): seq<LuaValue> {
    match v
    case Granted => [Number(1), Text("ok")]
    case DeniedGlobal => [Number(0), Text("global")]
    case DeniedSession => [Number(0), Text("session")]
  }

  /** How a reply that is not one of the driver's integer types reads. */
  function ToInt(v: LuaValue): int {
    if v.Number? then v.n else 0
  }

  function Show(v: LuaValue): string {
    match v
    case Text(s) => s
    case Number(n) => Decimal.Format(n)
    case Nothing => "<nil>"
  }

  function ParseAcquireResult(items: seq<LuaValue>): (r: (bool, string)) {
    if |items| == 0 then (false, "unknown")
    else
      var allowed := ToInt(items[0]) == 1;
      if |items| < 2 then (if allowed then (true, "ok") else (false, "unknown"))
      else (allowed, Show(items[1]))
  }

  /** The script's replies are read back as exactly the verdict they encode. */
  lemma ReplyRoundTrip(v: Verdict)
    ensures ParseAcquireResult(Reply(v)).0 <==> v == Granted
    ensures ParseAcquireResult(Reply(v)).1 == "global" <==> v == DeniedGlobal
    ensures ParseAcquireResult(Reply(v)).1 == "session" <==> v == DeniedSession
  {
    assert "ok"[0] != "global"[0] && "global"[0] != "session"[0] && "ok"[0] != "session"[0];
  }

  class Redis {
    var keys: Keyspace

    constructor ()
      ensures keys == map[]
    {
      keys := map[];
    }

    method AcquireBucket(key: string, maxTokens: int, refillRate: int, now: int, requested: int) returns (code: int)
      modifies this
      ensures code == if Take(old(keys), key, maxTokens, refillRate, now, requested).ok then 1 else 0
      ensures keys == Take(old(keys), key, maxTokens, refillRate, now, requested).keys
    {
      var tokens, last := maxTokens * 1000, now;
      if key in keys {
        tokens, last := keys[key].tokens, keys[key].last;
      }
      var elapsed := now - last;
      var refill := elapsed * refillRate;
      tokens := Min(maxTokens * 1000, tokens + refill);
      if tokens < requested * 1000 {
        keys := keys[key := Bucket(tokens, now)];
        return 0;
      }
      tokens := tokens - requested * 1000;
      keys := keys[key := Bucket(tokens, now)];
      return 1;
    }

    method EvalDualBucket(lim: Limits, sid: string, now: int) returns (reply: seq<LuaValue>)
      modifies this
      ensures keys == Script(old(keys), lim, sid, now).keys
      ensures reply == Reply(Script(old(keys), lim, sid, now).verdict)
    {
      var g := AcquireBucket(GLOBAL_KEY, lim.globalMax, lim.globalMax, now, 1);
      if g == 0 {
        return [Number(0), Text("global")];
      }
      var s := AcquireBucket(SessionKey(sid), lim.sessionMax, lim.sessionMax, now, 1);
      if s == 0 {
        return [Number(0), Text("session")];
      }
      return [Number(1), Text("ok")];
    }
  }

  /** How a call over the network can end: an error may strike before or after the script ran, and
      the reply may be something the script never sends. */
  datatype Link = Fine | FailsBefore | FailsAfter | Garbled(reply: seq<LuaValue>) {
    predicate Failed() {
      FailsBefore? || FailsAfter?
    }
  }

  /** What the limiter makes of one call, once the script is loaded. */
  function Answer(keys: Keyspace, lim: Limits, sid: string, now: int, link: Link): (bool, string) {
    match link
    case Fine => ParseAcquireResult(Reply(Script(keys, lim, sid, now).verdict))
    case Garbled(reply) => ParseAcquireResult(reply)
    case _ => (false, "redis_error")
  }

  class RateLimiter {
    const redis: Redis
    const limits: Limits
    var scriptLoaded: bool
    var allowed: nat
    var deniedGlobal: nat
    var deniedSession: nat
    var deniedOther: nat
    var redisErrors: nat

    constructor (r: Redis, globalRPS: int, perSessionRPS: int)
      ensures redis == r && !scriptLoaded
      ensures limits.Positive()
      ensures limits.globalMax == (if globalRPS <= 0 then 2000 else globalRPS)
      ensures limits.sessionMax == (if perSessionRPS <= 0 then 150 else perSessionRPS)
      ensures allowed == deniedGlobal == deniedSession == deniedOther == redisErrors == 0
    {
      redis := r;
      limits := Limits(if globalRPS <= 0 then 2000 else globalRPS, if perSessionRPS <= 0 then 150 else perSessionRPS);
      scriptLoaded := false;
      allowed, deniedGlobal, deniedSession, deniedOther, redisErrors := 0, 0, 0, 0, 0;
    }

    method Init(ok: bool) returns (success: bool)
      modifies this`scriptLoaded
      ensures success == ok && scriptLoaded == (ok || old(scriptLoaded))
    {
      if ok {
        scriptLoaded := true;
      }
      return ok;
    }

    /** Every call adds one to exactly one of the four outcome counters. */
    method AcquireWithReason(sid: string, now: int, link: Link) returns (ok: bool, reason: string)
      modifies this`allowed, this`deniedGlobal, this`deniedSession, this`deniedOther, this`redisErrors, redis
      ensures redis.keys == if !scriptLoaded || link.FailsBefore? then old(redis.keys)
                            else Script(old(redis.keys), limits, sid, now).keys
      ensures (ok, reason) == if !scriptLoaded then (true, "script_not_loaded")
                              else Answer(old(redis.keys), limits, sid, now, link)
      ensures allowed == old(allowed) + (if ok then 1 else 0)
      ensures deniedGlobal == old(deniedGlobal) + (if !ok && reason == "global" then 1 else 0)
      ensures deniedSession == old(deniedSession) + (if !ok && reason == "session" then 1 else 0)
      ensures deniedOther == old(deniedOther) + (if !ok && reason != "global" && reason != "session" then 1 else 0)
      ensures redisErrors == old(redisErrors) + (if scriptLoaded && (link.FailsBefore? || link.FailsAfter?) then 1 else 0)
    {
      if !scriptLoaded {
        allowed := allowed + 1;
        return true, "script_not_loaded";
      }
      var out := [];
      if !link.FailsBefore? {
        out := redis.EvalDualBucket(limits, sid, now);
      }
      if link.Failed() {
        redisErrors := redisErrors + 1;
        deniedOther := deniedOther + 1;
        reason := "redis_error";
        assert reason[0] != "global"[0] && reason[0] != "session"[0];
        return false, reason;
      }
      if link.Garbled? {
        out := link.reply;
      }
      var parsed := ParseAcquireResult(out);
      if parsed.0 {
        allowed := allowed + 1;
        return true, parsed.1;
      }
      match parsed.1 {
        case "global" => deniedGlobal := deniedGlobal + 1;
        case "session" => deniedSession := deniedSession + 1;
        case _ => deniedOther := deniedOther + 1;
      }
      return false, parsed.1;
    }
  }

  // ---------------------------------------------------------------- whole runs

  /** What Redis sees: script calls, and its own removal of an expired key. */
  datatype Event = Call(sid: string, now: int) | Evict(key: string, now: int)

  /** Events carry a clock that never goes back. */
  ghost predicate Ordered(es: seq<Event>) {
    forall i, j | 0 <= i < j < |es| :: es[i].now <= es[j].now
  }

  /** A key may vanish only once it has expired; each write sets `last` and restarts the expiry. */
  predicate MayEvict(keys: Keyspace, key: string, now: int) {
    key in keys && now >= keys[key].last + EXPIRY_MS
  }

  datatype Entry = Entry(event: Event, globalTook: bool, sessionTook: bool, verdict: Verdict)

  datatype History = History(keys: Keyspace, log: seq<Entry>)

  function Apply(h: History, lim: Limits, e: Event, expires: bool): History {
    match e
    case Call(sid, now) =>
      var r := Script(h.keys, lim, sid, now);
      History(r.keys, h.log + [Entry(e, r.globalTook, r.sessionTook, r.verdict)])
    case Evict(key, now) =>
      if expires && MayEvict(h.keys, key, now) then History(h.keys - {key}, h.log) else h
  }

  /** The run of `es` from an empty Redis; with `expires` false no key ever vanishes. */
  function Run(lim: Limits, es: seq<Event>, expires: bool): History {
    if es == [] then History(map[], [])
    else Apply(Run(lim, es[..|es| - 1], expires), lim, es[|es| - 1], expires)
  }

  /** A key vanishes ten seconds after it was written, or later, and nothing else happens then. */
  lemma VanishesWhenExpired(h: History, lim: Limits, key: string, now: int)
    requires key in h.keys
    ensures Apply(h, lim, Evict(key, now), true) == if now - h.keys[key].last >= 10000 then h.(keys := h.keys - {key}) else h
  {
  }

  ghost predicate BucketsSound(keys: Keyspace, lim: Limits, now: int) {
    forall k | k in keys :: 0 <= keys[k].tokens <= lim.MaxOf(k) * 1000 && keys[k].last <= now
  }

  lemma TakeSound(keys: Keyspace, lim: Limits, key: string, now: int)
    requires lim.Positive() && BucketsSound(keys, lim, now)
    ensures 0 <= Refilled(keys, key, lim.MaxOf(key), lim.MaxOf(key), now) <= lim.MaxOf(key) * 1000
    ensures BucketsSound(Take(keys, key, lim.MaxOf(key), lim.MaxOf(key), now, 1).keys, lim, now)
  {
    if key in keys {
      MulMono(now - keys[key].last, 0, lim.MaxOf(key));
    }
  }

  lemma ScriptSound(keys: Keyspace, lim: Limits, sid: string, now: int)
    requires lim.Positive() && BucketsSound(keys, lim, now)
    ensures BucketsSound(Script(keys, lim, sid, now).keys, lim, now)
  {
    KeysDistinct(sid, sid);
    TakeSound(keys, lim, GLOBAL_KEY, now);
    var g := Take(keys, GLOBAL_KEY, lim.globalMax, lim.globalMax, now, 1);
    TakeSound(g.keys, lim, SessionKey(sid), now);
  }

  /** Every bucket holds between zero and its maximum number of tokens after every event. */
  lemma {:induction false} BucketsStaySound(lim: Limits, es: seq<Event>, expires: bool, now: int)
    requires lim.Positive() && Ordered(es)
    requires es != [] ==> es[|es| - 1].now <= now
    ensures BucketsSound(Run(lim, es, expires).keys, lim, now)
  {
    if es != [] {
      var e := es[|es| - 1];
      BucketsStaySound(lim, es[..|es| - 1], expires, e.now);
      if e.Call? {
        ScriptSound(Run(lim, es[..|es| - 1], expires).keys, lim, e.sid, e.now);
      }
    }
  }

  // ---------------------------------------------------------------- key expiry is invisible

  /** `lossy` is `full` with some keys missing that had expired, and were full again, by `now`. */
  ghost predicate SameButExpired(lossy: Keyspace, full: Keyspace, now: int) {
    && (forall k | k in lossy :: k in full && lossy[k] == full[k])
    && (forall k | k in full && k !in lossy :: now >= full[k].last + EXPIRY_MS)
  }

  lemma TakeSame(lossy: Keyspace, full: Keyspace, lim: Limits, key: string, now: int)
    requires lim.Positive() && BucketsSound(full, lim, now) && SameButExpired(lossy, full, now)
    ensures var m := lim.MaxOf(key);
            var a, b := Take(lossy, key, m, m, now, 1), Take(full, key, m, m, now, 1);
            a.ok == b.ok && SameButExpired(a.keys, b.keys, now)
  {
    RefilledSame(lossy, full, lim, key, now);
  }

  /** A bucket that may have expired is full again. */
  lemma RefilledSame(lossy: Keyspace, full: Keyspace, lim: Limits, key: string, now: int)
    requires lim.Positive() && BucketsSound(full, lim, now) && SameButExpired(lossy, full, now)
    ensures Refilled(lossy, key, lim.MaxOf(key), lim.MaxOf(key), now) == Refilled(full, key, lim.MaxOf(key), lim.MaxOf(key), now)
  {
    var m := lim.MaxOf(key);
    if key in full && key !in lossy {
      FullAgain(m, full[key].tokens, now - full[key].last);
    }
  }

  lemma FullAgain(m: int, tokens: int, elapsed: int)
    requires m > 0 && tokens >= 0 && elapsed >= EXPIRY_MS
    ensures Min(m * 1000, tokens + elapsed * m) == m * 1000
  {
    MulMono(m, 1000, elapsed);
  }

  lemma ScriptSame(lossy: Keyspace, full: Keyspace, lim: Limits, sid: string, now: int)
    requires lim.Positive() && BucketsSound(full, lim, now) && SameButExpired(lossy, full, now)
    ensures var a, b := Script(lossy, lim, sid, now), Script(full, lim, sid, now);
            && a == b.(keys := a.keys)
            && SameButExpired(a.keys, b.keys, now)
  {
    KeysDistinct(sid, sid);
    TakeSame(lossy, full, lim, GLOBAL_KEY, now);
    TakeSound(full, lim, GLOBAL_KEY, now);
    var m := lim.globalMax;
    TakeSame(Take(lossy, GLOBAL_KEY, m, m, now, 1).keys, Take(full, GLOBAL_KEY, m, m, now, 1).keys, lim, SessionKey(sid), now);
  }

  /** A limiter whose keys vanish at any moment after their expiry answers every call exactly as
      one whose keys never vanish. */
  lemma {:induction false} ExpiryInvisible(lim: Limits, es: seq<Event>)
    requires lim.Positive() && Ordered(es)
    ensures Run(lim, es, true).log == Run(lim, es, false).log
    ensures es != [] ==> SameButExpired(Run(lim, es, true).keys, Run(lim, es, false).keys, es[|es| - 1].now)
  {
    if es != [] {
      var pre, e := es[..|es| - 1], es[|es| - 1];
      ExpiryInvisible(lim, pre);
      BucketsStaySound(lim, pre, false, e.now);
      var lossy, full := Run(lim, pre, true).keys, Run(lim, pre, false).keys;
      assert pre != [] ==> pre[|pre| - 1].now <= e.now;
      assert SameButExpired(lossy, full, e.now);
      if e.Call? {
        ScriptSame(lossy, full, lim, e.sid, e.now);
      }
    }
  }

  // ---------------------------------------------------------------- admission bounds

  /** A log entry that took a token from the bucket `key`. */
  function TookFrom(key: string, t1: int, t2: int): Entry -> bool {
    (n: Entry) =>
      && t1 <= n.event.now <= t2
      && (if key == GLOBAL_KEY then n.globalTook else n.event.Call? && SessionKey(n.event.sid) == key && n.sessionTook)
  }

  /** The balance kept by a bucket through a window: tokens held plus tokens taken in the window
      never exceed one full bucket plus the refill since the window opened. */
  ghost predicate Balanced(keys: Keyspace, key: string, max: int, t1: int, t2: int, took: int) {
    if key !in keys || keys[key].last < t1 then took == 0
    else if keys[key].last <= t2 then keys[key].tokens + 1000 * took <= max * 1000 + max * (keys[key].last - t1)
    else 1000 * took <= max * 1000 + max * (t2 - t1)
  }

  lemma TakeBalanced(keys: Keyspace, lim: Limits, key: string, now: int, t1: int, t2: int, took: int)
    requires lim.Positive() && BucketsSound(keys, lim, now) && t1 <= t2
    requires Balanced(keys, key, lim.MaxOf(key), t1, t2, took)
    ensures var r := Take(keys, key, lim.MaxOf(key), lim.MaxOf(key), now, 1);
            Balanced(r.keys, key, lim.MaxOf(key), t1, t2, took + (if r.ok && t1 <= now <= t2 then 1 else 0))
  {
    var m := lim.MaxOf(key);
    TakeSound(keys, lim, key, now);
    if t1 <= now <= t2 {
      MulMono(m, 0, now - t1);
      if key in keys && t1 <= keys[key].last {
        RefillSplits(m, t1, keys[key].last, now);
      }
    } else if t2 < now && key in keys && t1 <= keys[key].last <= t2 {
      MulMono(m, keys[key].last - t1, t2 - t1);
    } else {
      MulMono(m, 0, t2 - t1);
    }
  }

  lemma RefillSplits(m: int, t1: int, last: int, now: int)
    ensures m * (last - t1) + (now - last) * m == m * (now - t1)
  {
    Distribute(m, last - t1, now - last);
    assert (last - t1) + (now - last) == now - t1;
  }

  lemma {:induction false} BucketWindow(lim: Limits, es: seq<Event>, key: string, t1: int, t2: int)
    requires lim.Positive() && Ordered(es) && t1 <= t2
    ensures var h := Run(lim, es, false);
            Balanced(h.keys, key, lim.MaxOf(key), t1, t2, Count(h.log, TookFrom(key, t1, t2)))
  {
    if es != [] {
      var pre, e := es[..|es| - 1], es[|es| - 1];
      BucketWindow(lim, pre, key, t1, t2);
      BucketsStaySound(lim, pre, false, e.now);
      var h := Run(lim, pre, false);
      if e.Call? {
        ScriptWindow(h, lim, e, key, t1, t2);
      }
    }
  }

  lemma ScriptWindow(h: History, lim: Limits, e: Event, key: string, t1: int, t2: int)
    requires lim.Positive() && e.Call? && BucketsSound(h.keys, lim, e.now) && t1 <= t2
    requires Balanced(h.keys, key, lim.MaxOf(key), t1, t2, Count(h.log, TookFrom(key, t1, t2)))
    ensures var h' := Apply(h, lim, e, false);
            Balanced(h'.keys, key, lim.MaxOf(key), t1, t2, Count(h'.log, TookFrom(key, t1, t2)))
  {
    var took := Count(h.log, TookFrom(key, t1, t2));
    var h' := Apply(h, lim, e, false);
    assert h'.log[..|h'.log| - 1] == h.log;
    KeysDistinct(e.sid, e.sid);
    var g := Take(h.keys, GLOBAL_KEY, lim.globalMax, lim.globalMax, e.now, 1);
    TakeSound(h.keys, lim, GLOBAL_KEY, e.now);
    if key == GLOBAL_KEY {
      TakeBalanced(h.keys, lim, key, e.now, t1, t2, took);
    } else if key == SessionKey(e.sid) && g.ok {
      TakeBalanced(g.keys, lim, key, e.now, t1, t2, took);
    }
  }

  lemma BalancedBound(keys: Keyspace, lim: Limits, key: string, t1: int, t2: int, took: int, now: int)
    requires lim.Positive() && t1 <= t2 && BucketsSound(keys, lim, now)
    requires Balanced(keys, key, lim.MaxOf(key), t1, t2, took)
    ensures 1000 * took <= lim.MaxOf(key) * 1000 + lim.MaxOf(key) * (t2 - t1)
  {
    var m := lim.MaxOf(key);
    MulMono(m, 0, t2 - t1);
    if key in keys && t1 <= keys[key].last <= t2 {
      MulMono(m, keys[key].last - t1, t2 - t1);
    }
  }

  function GrantedTo(sid: string, t1: int, t2: int): Entry -> bool {
    (n: Entry) => n.event.Call? && n.event.sid == sid && n.verdict == Granted && t1 <= n.event.now <= t2
  }

  function WithVerdict(v: Verdict, t1: int, t2: int): Entry -> bool {
    (n: Entry) => n.verdict == v && t1 <= n.event.now <= t2
  }

  /** In any window of time one session is granted at most one bucket plus its refill
      (both sides in thousandths of a token). */
  lemma SessionAdmission(lim: Limits, es: seq<Event>, sid: string, t1: int, t2: int)
    requires lim.Positive() && Ordered(es) && t1 <= t2
    ensures var n := Count(Run(lim, es, true).log, GrantedTo(sid, t1, t2));
            1000 * n <= 1000 * lim.sessionMax + lim.sessionMax * (t2 - t1)
  {
    var log := Run(lim, es, false).log;
    ExpiryInvisible(lim, es);
    KeysDistinct(sid, sid);
    TakenInWindow(lim, es, SessionKey(sid), t1, t2);
    LogConsistent(lim, es);
    CountMono(log, log, GrantedTo(sid, t1, t2), TookFrom(SessionKey(sid), t1, t2));
  }

  /** Over all sessions together, grants and session denials both spend global tokens: their sum is
      bounded by the global bucket plus its refill, because a refused session token is not refunded. */
  lemma GlobalAdmission(lim: Limits, es: seq<Event>, t1: int, t2: int)
    requires lim.Positive() && Ordered(es) && t1 <= t2
    ensures var log := Run(lim, es, true).log;
            var granted, refused := Count(log, WithVerdict(Granted, t1, t2)), Count(log, WithVerdict(DeniedSession, t1, t2));
            && granted + refused == Count(log, TookFrom(GLOBAL_KEY, t1, t2))
            && 1000 * (granted + refused) <= 1000 * lim.globalMax + lim.globalMax * (t2 - t1)
  {
    var log := Run(lim, es, false).log;
    ExpiryInvisible(lim, es);
    TakenInWindow(lim, es, GLOBAL_KEY, t1, t2);
    LogConsistent(lim, es);
    GlobalSplit(log, t1, t2);
  }

  lemma TakenInWindow(lim: Limits, es: seq<Event>, key: string, t1: int, t2: int)
    requires lim.Positive() && Ordered(es) && t1 <= t2
    ensures 1000 * Count(Run(lim, es, false).log, TookFrom(key, t1, t2)) <= lim.MaxOf(key) * 1000 + lim.MaxOf(key) * (t2 - t1)
  {
    var h := Run(lim, es, false);
    var now := if es == [] then 0 else es[|es| - 1].now;
    BucketWindow(lim, es, key, t1, t2);
    BucketsStaySound(lim, es, false, now);
    BalancedBound(h.keys, lim, key, t1, t2, Count(h.log, TookFrom(key, t1, t2)), now);
  }

  ghost predicate ConsistentEntry(n: Entry) {
    && n.event.Call?
    && n.globalTook == (n.verdict != DeniedGlobal)
    && n.sessionTook == (n.verdict == Granted)
  }

  lemma {:induction false} LogConsistent(lim: Limits, es: seq<Event>)
    ensures forall i | 0 <= i < |Run(lim, es, false).log| :: ConsistentEntry(Run(lim, es, false).log[i])
  {
    if es != [] {
      LogConsistent(lim, es[..|es| - 1]);
    }
  }

  lemma {:induction false} GlobalSplit(log: seq<Entry>, t1: int, t2: int)
    requires forall i | 0 <= i < |log| :: ConsistentEntry(log[i])
    ensures Count(log, TookFrom(GLOBAL_KEY, t1, t2))
         == Count(log, WithVerdict(Granted, t1, t2)) + Count(log, WithVerdict(DeniedSession, t1, t2))
  {
    if log != [] {
      GlobalSplit(log[..|log| - 1], t1, t2);
    }
  }

  // ---------------------------------------------------------------- what is there is granted

  /** A bucket is spent no faster than it was full: since some earlier moment it holds at least what a full bucket
      and the refill since then leave after the tokens taken since then. */
  ghost predicate Solvent(keys: Keyspace, log: seq<Entry>, key: string, max: int) {
    key in keys ==> exists t1 :: SolventSince(keys, log, key, max, t1)
  }

  ghost predicate SolventSince(keys: Keyspace, log: seq<Entry>, key: string, max: int, t1: int)
    requires key in keys
  {
    && t1 <= keys[key].last
    && keys[key].tokens + 1000 * Count(log, TookFrom(key, t1, keys[key].last)) >= max * 1000 + max * (keys[key].last - t1)
  }

  /** The tokens taken from a bucket since some earlier moment have used up all but the last one. */
  ghost predicate Spent(log: seq<Entry>, key: string, max: int, now: int) {
    exists t1 :: t1 <= now && SpentSince(log, key, max, t1, now)
  }

  ghost predicate SpentSince(log: seq<Entry>, key: string, max: int, t1: int, now: int) {
    1000 * Count(log, TookFrom(key, t1, now)) > (max - 1) * 1000 + max * (now - t1)
  }

  /** A bucket refuses only when it is spent. */
  lemma RefusedMeansSpent(keys: Keyspace, log: seq<Entry>, lim: Limits, key: string, now: int)
    requires lim.Positive() && BucketsSound(keys, lim, now) && Solvent(keys, log, key, lim.MaxOf(key))
    requires !Take(keys, key, lim.MaxOf(key), lim.MaxOf(key), now, 1).ok
    ensures Spent(log, key, lim.MaxOf(key), now)
  {
    var m := lim.MaxOf(key);
    assert key in keys;
    var t1 :| SolventSince(keys, log, key, m, t1);
    var last := keys[key].last;
    RefillSplits(m, t1, last, now);
    CountMono(log, log, TookFrom(key, t1, last), TookFrom(key, t1, now));
    Distribute(1000, m, -1);
    assert SpentSince(log, key, m, t1, now);
  }

  /** Taking from a solvent bucket, or being refused, leaves it solvent; `entry` logs what happened. */
  lemma TakeSolvent(keys: Keyspace, log: seq<Entry>, lim: Limits, key: string, now: int, entry: Entry)
    requires lim.Positive() && BucketsSound(keys, lim, now) && Solvent(keys, log, key, lim.MaxOf(key))
    requires entry.event.now == now
    requires TookFrom(key, now, now)(entry) == Take(keys, key, lim.MaxOf(key), lim.MaxOf(key), now, 1).ok
    ensures Solvent(Take(keys, key, lim.MaxOf(key), lim.MaxOf(key), now, 1).keys, log + [entry], key, lim.MaxOf(key))
  {
    var m := lim.MaxOf(key);
    var r := Take(keys, key, m, m, now, 1);
    assert (log + [entry])[..|log|] == log;
    if key !in keys || keys[key].tokens + (now - keys[key].last) * m >= m * 1000 {
      assert SolventSince(r.keys, log + [entry], key, m, now);
    } else {
      var t1 :| SolventSince(keys, log, key, m, t1);
      RefillSplits(m, t1, keys[key].last, now);
      CountMono(log, log, TookFrom(key, t1, keys[key].last), TookFrom(key, t1, now));
      assert TookFrom(key, t1, now)(entry) == TookFrom(key, now, now)(entry);
      assert SolventSince(r.keys, log + [entry], key, m, t1);
    }
  }

  /** Other buckets stay solvent: the log only grows. */
  lemma OtherSolvent(keys: Keyspace, after: Keyspace, log: seq<Entry>, key: string, max: int, entry: Entry)
    requires Solvent(keys, log, key, max)
    requires (key in after <==> key in keys) && (key in keys ==> after[key] == keys[key])
    ensures Solvent(after, log + [entry], key, max)
  {
    assert (log + [entry])[..|log|] == log;
    if key in keys {
      var t1 :| SolventSince(keys, log, key, max, t1);
      assert SolventSince(after, log + [entry], key, max, t1);
    }
  }

  lemma CallSolvent(h: History, lim: Limits, sid: string, now: int, key: string)
    requires lim.Positive() && BucketsSound(h.keys, lim, now) && Solvent(h.keys, h.log, key, lim.MaxOf(key))
    ensures var h' := Apply(h, lim, Call(sid, now), false); Solvent(h'.keys, h'.log, key, lim.MaxOf(key))
  {
    var h' := Apply(h, lim, Call(sid, now), false);
    var entry := h'.log[|h.log|];
    assert h'.log == h.log + [entry];
    KeysDistinct(sid, sid);
    TakeSound(h.keys, lim, GLOBAL_KEY, now);
    var g := Take(h.keys, GLOBAL_KEY, lim.globalMax, lim.globalMax, now, 1);
    if key == GLOBAL_KEY {
      TakeSolvent(h.keys, h.log, lim, key, now, entry);
      SameBucket(g.keys, h'.keys, h.log + [entry], key, lim.MaxOf(key));
    } else if key == SessionKey(sid) && g.ok {
      assert key in g.keys <==> key in h.keys;
      SameBucket(h.keys, g.keys, h.log, key, lim.MaxOf(key));
      TakeSolvent(g.keys, h.log, lim, key, now, entry);
    } else {
      OtherSolvent(h.keys, h'.keys, h.log, key, lim.MaxOf(key), entry);
    }
  }

  lemma SameBucket(keys: Keyspace, after: Keyspace, log: seq<Entry>, key: string, max: int)
    requires Solvent(keys, log, key, max)
    requires (key in after <==> key in keys) && (key in keys ==> after[key] == keys[key])
    ensures Solvent(after, log, key, max)
  {
    if key in keys {
      var t1 :| SolventSince(keys, log, key, max, t1);
      assert SolventSince(after, log, key, max, t1);
    }
  }

  lemma {:induction false} RunSolvent(lim: Limits, es: seq<Event>, key: string)
    requires lim.Positive() && Ordered(es)
    ensures var h := Run(lim, es, false); Solvent(h.keys, h.log, key, lim.MaxOf(key))
  {
    if es != [] {
      var pre, e := es[..|es| - 1], es[|es| - 1];
      RunSolvent(lim, pre, key);
      BucketsStaySound(lim, pre, false, e.now);
      if e.Call? {
        CallSolvent(Run(lim, pre, false), lim, e.sid, e.now, key);
      }
    }
  }

  /** Why a call was denied: the bucket that refused it was spent by the calls before it. */
  ghost predicate Justified(lim: Limits, log: seq<Entry>, n: int)
    requires 0 <= n < |log|
  {
    && log[n].event.Call?
    && (log[n].verdict == DeniedGlobal ==> Spent(log[..n], GLOBAL_KEY, lim.globalMax, log[n].event.now))
    && (log[n].verdict == DeniedSession ==> Spent(log[..n], SessionKey(log[n].event.sid), lim.sessionMax, log[n].event.now))
  }

  /** Over every run, with expiring keys or without, a denial is always justified: since some earlier moment, more
      tokens were taken from the bucket than a full bucket and the refill since then leave when one is kept back. */
  lemma DeniedMeansSpent(lim: Limits, es: seq<Event>, expires: bool, n: nat)
    requires lim.Positive() && Ordered(es) && n < |Run(lim, es, expires).log|
    ensures Justified(lim, Run(lim, es, expires).log, n)
  {
    ExpiryInvisible(lim, es);
    DenialsJustified(lim, es);
  }

  lemma {:induction false} DenialsJustified(lim: Limits, es: seq<Event>)
    requires lim.Positive() && Ordered(es)
    ensures forall n | 0 <= n < |Run(lim, es, false).log| :: Justified(lim, Run(lim, es, false).log, n)
  {
    if es != [] {
      var pre, e := es[..|es| - 1], es[|es| - 1];
      var h, log := Run(lim, pre, false), Run(lim, es, false).log;
      DenialsJustified(lim, pre);
      forall n | 0 <= n < |h.log| ensures Justified(lim, log, n) {
        assert log[..n] == h.log[..n] && log[n] == h.log[n];
        assert Justified(lim, h.log, n);
      }
      if e.Call? {
        assert log[..|h.log|] == h.log;
        LastJustified(lim, pre, e.sid, e.now);
      }
    }
  }

  lemma LastJustified(lim: Limits, pre: seq<Event>, sid: string, now: int)
    requires lim.Positive() && Ordered(pre) && (pre != [] ==> pre[|pre| - 1].now <= now)
    ensures var h := Run(lim, pre, false);
            var v := Script(h.keys, lim, sid, now).verdict;
            && (v == DeniedGlobal ==> Spent(h.log, GLOBAL_KEY, lim.globalMax, now))
            && (v == DeniedSession ==> Spent(h.log, SessionKey(sid), lim.sessionMax, now))
  {
    var h := Run(lim, pre, false);
    var g := Take(h.keys, GLOBAL_KEY, lim.globalMax, lim.globalMax, now, 1);
    BucketsStaySound(lim, pre, false, now);
    KeysDistinct(sid, sid);
    TakeSound(h.keys, lim, GLOBAL_KEY, now);
    if !g.ok {
      RunSolvent(lim, pre, GLOBAL_KEY);
      RefusedMeansSpent(h.keys, h.log, lim, GLOBAL_KEY, now);
    } else if Script(h.keys, lim, sid, now).verdict == DeniedSession {
      RunSolvent(lim, pre, SessionKey(sid));
      SameBucket(h.keys, g.keys, h.log, SessionKey(sid), lim.sessionMax);
      RefusedMeansSpent(g.keys, h.log, lim, SessionKey(sid), now);
    }
  }

  /** From an empty Redis, the first calls of one session at one instant are all granted, up to the smaller limit. */
  lemma FirstCallsGranted(lim: Limits, sid: string, now: int, es: seq<Event>, n: nat)
    requires lim.Positive() && |es| <= Min(lim.globalMax, lim.sessionMax)
    requires forall e | e in es :: e == Call(sid, now)
    requires n < |es|
    ensures |Run(lim, es, true).log| == |es| && Run(lim, es, true).log[n].verdict == Granted
  {
    var log := Run(lim, es, true).log;
    assert forall i | 0 <= i < |es| :: es[i] in es;
    OneEntryPerCall(lim, es);
    DeniedMeansSpent(lim, es, true, n);
    if log[n].verdict == DeniedGlobal {
      FewCannotSpend(log[..n], GLOBAL_KEY, lim.globalMax, now);
    } else if log[n].verdict == DeniedSession {
      FewCannotSpend(log[..n], SessionKey(log[n].event.sid), lim.sessionMax, now);
    }
  }

  lemma {:induction false} OneEntryPerCall(lim: Limits, es: seq<Event>)
    requires forall i | 0 <= i < |es| :: es[i].Call?
    ensures |Run(lim, es, true).log| == |es|
    ensures forall i | 0 <= i < |es| :: Run(lim, es, true).log[i].event == es[i]
  {
    if es != [] {
      OneEntryPerCall(lim, es[..|es| - 1]);
    }
  }

  lemma FewCannotSpend(log: seq<Entry>, key: string, max: int, now: int)
    requires max > 0 && |log| < max
    ensures !Spent(log, key, max, now)
  {
    forall t1 | t1 <= now ensures !SpentSince(log, key, max, t1, now) {
      MulMono(max, 0, now - t1);
      MulMono(1000, Count(log, TookFrom(key, t1, now)), max - 1);
    }
  }

  /** A call over a failing link is denied, and says so; without a failure, the script's verdict decides. */
  lemma AnswerMeaning(keys: Keyspace, lim: Limits, sid: string, now: int)
    ensures Answer(keys, lim, sid, now, FailsBefore) == Answer(keys, lim, sid, now, FailsAfter) == (false, "redis_error")
    ensures Answer(keys, lim, sid, now, Fine).0 <==> Script(keys, lim, sid, now).verdict == Granted
    ensures Answer(keys, lim, sid, now, Fine).1
         == match Script(keys, lim, sid, now).verdict case Granted => "ok" case DeniedGlobal => "global" case DeniedSession => "session"
  {
    ReplyRoundTrip(Script(keys, lim, sid, now).verdict);
  }

  /** Replies the script never sends: no list or an empty one, or a first element that is not the number one, deny. */
  lemma GarbledMeaning(reply: seq<LuaValue>)
    ensures ParseAcquireResult(reply).0 <==> reply != [] && reply[0] == Number(1)
    ensures |reply| < 2 ==> ParseAcquireResult(reply).1 == if ParseAcquireResult(reply).0 then "ok" else "unknown"
    ensures |reply| >= 2 ==> ParseAcquireResult(reply).1 == match reply[1] case Text(s) => s case Number(n) => Decimal.Format(n) case Nothing => "<nil>"
  {
  }
}
