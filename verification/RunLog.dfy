/** The log of a run's payloads and timestamps, kept in memory or in Redis: two key schemes, one abstract log. */
module RunLog {
  import opened Names
  import opened Decimal
  import opened Wrappers

  /** The coordinates of a log entry. */
  datatype Slot = Slot(runID: string, pipeline: string, action: string) {
    /** Run and pipeline names have no colon; actions may. */
    predicate Named() {
      ColonFree(runID) && ColonFree(pipeline)
    }

    /** Names the key families of Redis can tell apart from all others of their kind. */
    predicate Plain() {
      Named() && ((pipeline != "ts" && pipeline != "count") || ColonFree(action))
    }

    predicate Complete() {
      runID != "" && pipeline != "" && action != ""
    }
  }

  type Bucket = map<string, string>

  /** What the callers of a store do to it. */
  datatype Op =
    | Record(slot: Slot, txnID: string, payload: string)
    | RecordTimestamp(slot: Slot, txnID: string, at: int)
    | Cleanup(runID: string)

  datatype Emission = Emission(pipeline: string, action: string, txnID: string, payload: string)

  // ---------------------------------------------------------------- in memory

  function MemKey(s: Slot): string {
    s.runID + ":" + s.pipeline + ":" + s.action
  }

  datatype Memory = Memory(data: map<string, Bucket>, counters: map<string, nat>, timestamps: map<string, map<string, int>>)

  function MemApply(m: Memory, op: Op): Memory {
    match op
    case Record(slot, txn, payload) =>
      if !slot.Complete() || txn == "" then m
      else
        var k := MemKey(slot);
        m.(data := m.data[k := MemBucket(m, k)[txn := payload]], counters := m.counters[k := MemCount(m, k) + 1])
    case RecordTimestamp(slot, txn, at) =>
      if !slot.Complete() || txn == "" then m
      else m.(timestamps := m.timestamps[MemKey(slot) := MemTimes(m, MemKey(slot))[txn := at]])
    case Cleanup(run) =>
      var prefix := run + ":";
      Memory(map k | k in m.data && !(prefix <= k) :: m.data[k],
             map k | k in m.counters && !(prefix <= k) :: m.counters[k],
             map k | k in m.timestamps && !(prefix <= k) :: m.timestamps[k])
  }

  function MemBucket(m: Memory, k: string): Bucket {
    if k in m.data then m.data[k] else map[]
  }

  function MemTimes(m: Memory, k: string): map<string, int> {
    if k in m.timestamps then m.timestamps[k] else map[]
  }

  function MemCount(m: Memory, k: string): nat {
    if k in m.counters then m.counters[k] else 0
  }

  /** What an export of the run hands to its visitor. */
  function MemExport(m: Memory, runID: string): set<Emission> {
    set k, t | k in m.data && InRun(runID, k) && t in m.data[k] :: MemEmission(k, t, m.data[k][t])
  }

  /** A key the export of a run visits, and what it hands on for one entry there. */
  predicate InRun(runID: string, k: string) {
    runID + ":" <= k && |SplitN(k, 3)| == 3
  }

  function MemEmission(k: string, txnID: string, payload: string): Emission
    requires |SplitN(k, 3)| == 3
  {
    Emission(SplitN(k, 3)[1], SplitN(k, 3)[2], txnID, payload)
  }

  // ---------------------------------------------------------------- in Redis

  datatype Value = Hash(fields: Bucket) | Number(n: int)

  type Keyspace = map<string, Value>

  function Key(runID: string, part: string, rest: string): string {
    "runlog:" + runID + ":" + part + ":" + rest
  }

  function HashKey(s: Slot): string {
    Key(s.runID, s.pipeline, s.action)
  }

  function TimestampKey(s: Slot): string {
    Key(s.runID, "ts", s.pipeline + ":" + s.action)
  }

  function CounterKey(s: Slot): string {
    Key(s.runID, "count", s.pipeline + ":" + s.action)
  }

  function FieldsAt(ks: Keyspace, k: string): Bucket {
    if k in ks && ks[k].Hash? then ks[k].fields else map[]
  }

  function NumberAt(ks: Keyspace, k: string): int {
    if k in ks && ks[k].Number? then ks[k].n else 0
  }

  /** A command on a key of the other type is refused. */
  predicate HoldsHash(ks: Keyspace, k: string) {
    k in ks ==> ks[k].Hash?
  }

  predicate HoldsNumber(ks: Keyspace, k: string) {
    k in ks ==> ks[k].Number?
  }

  function HSet(ks: Keyspace, k: string, field: string, value: string): Keyspace {
    if HoldsHash(ks, k) then ks[k := Hash(FieldsAt(ks, k)[field := value])] else ks
  }

  function Incr(ks: Keyspace, k: string): Keyspace {
    if HoldsNumber(ks, k) then ks[k := Number(NumberAt(ks, k) + 1)] else ks
  }

  function RedisApply(ks: Keyspace, op: Op): Keyspace {
    match op
    case Record(slot, txn, payload) =>
      if !slot.Complete() || txn == "" || !HoldsHash(ks, HashKey(slot)) then ks
      else Incr(HSet(ks, HashKey(slot), txn, payload), CounterKey(slot))
    case RecordTimestamp(slot, txn, at) =>
      if !slot.Complete() || txn == "" then ks else HSet(ks, TimestampKey(slot), txn, Format(at))
    case Cleanup(run) =>
      map k | k in ks && !("runlog:" + run + ":" <= k) :: ks[k]
  }

  /** Export keeps the keys of four parts; timestamp and counter keys have more. */
  predicate ExportsKey(ks: Keyspace, runID: string, k: string) {
    && k in ks && "runlog:" + runID + ":" <= k
    && |Split(k)| == 4 && Split(k)[0] == "runlog" && Split(k)[1] == runID && Split(k)[2] != "" && Split(k)[3] != ""
  }

  function RedisExport(ks: Keyspace, runID: string): set<Emission> {
    set k, t | k in ks && ExportsKey(ks, runID, k) && t in FieldsAt(ks, k) ::
      Emission(Split(k)[2], Split(k)[3], t, FieldsAt(ks, k)[t])
  }

  // ---------------------------------------------------------------- keys

  lemma MemKeyThreeParts(s: Slot)
    requires s.Named()
    ensures SplitN(MemKey(s), 3) == [s.runID, s.pipeline, s.action]
  {
    var rest := s.pipeline + ":" + s.action;
    assert MemKey(s) == s.runID + ":" + rest;
    SplitNHead(s.runID, rest, 3);
    SplitNHead(s.pipeline, s.action, 2);
  }

  lemma MemKeyInjective(a: Slot, b: Slot)
    requires a.Named() && b.Named()
    ensures MemKey(a) == MemKey(b) <==> a == b
  {
    MemKeyThreeParts(a);
    MemKeyThreeParts(b);
  }

  lemma SplitNHead(name: string, rest: string, n: nat)
    requires ColonFree(name) && n > 1
    ensures SplitN(name + ":" + rest, n) == [name] + SplitN(rest, n - 1)
  {
    ColonAfter(name, rest);
    var s := name + ":" + rest;
    assert s[..|name|] == name && s[|name| + 1..] == rest;
  }

  lemma KeyRegrouped(runID: string, part: string, rest: string)
    ensures Key(runID, part, rest) == "runlog" + ":" + (runID + ":" + (part + ":" + rest))
  {
    assert Key(runID, part, rest) == "runlog:" + (runID + ":" + (part + ":" + rest));
  }

  lemma KeyInjective(r1: string, p1: string, x1: string, r2: string, p2: string, x2: string)
    requires ColonFree(r1) && ColonFree(p1) && ColonFree(r2) && ColonFree(p2)
    ensures Key(r1, p1, x1) == Key(r2, p2, x2) <==> r1 == r2 && p1 == p2 && x1 == x2
  {
    if Key(r1, p1, x1) == Key(r2, p2, x2) {
      KeyRegrouped(r1, p1, x1);
      KeyRegrouped(r2, p2, x2);
      HeadAndRest("runlog", r1 + ":" + (p1 + ":" + x1), "runlog", r2 + ":" + (p2 + ":" + x2));
      HeadAndRest(r1, p1 + ":" + x1, r2, p2 + ":" + x2);
      HeadAndRest(p1, x1, p2, x2);
    }
  }

  lemma KeyParts(runID: string, part: string, rest: string)
    requires ColonFree(runID) && ColonFree(part)
    ensures Split(Key(runID, part, rest)) == ["runlog"] + ([runID] + ([part] + Split(rest)))
  {
    KeyRegrouped(runID, part, rest);
    SplitHead(part, rest);
    SplitHead(runID, part + ":" + rest);
    SplitHead("runlog", runID + ":" + (part + ":" + rest));
  }

  /** The payload key of one slot is the timestamp or counter key of another. */
  predicate Meets(a: Slot, b: Slot) {
    a.runID == b.runID && (a.pipeline == "ts" || a.pipeline == "count") && a.action == b.pipeline + ":" + b.action
  }

  lemma FixedParts()
    ensures ColonFree("ts") && ColonFree("count") && "ts" != "count"
  {
  }

  lemma SameTail(a: Slot, b: Slot)
    requires a.Named() && b.Named()
    ensures a.pipeline + ":" + a.action == b.pipeline + ":" + b.action <==> a.pipeline == b.pipeline && a.action == b.action
  {
    if a.pipeline + ":" + a.action == b.pipeline + ":" + b.action {
      HeadAndRest(a.pipeline, a.action, b.pipeline, b.action);
    }
  }

  /** When keys meet, exactly, whatever the actions: a payload key is a timestamp key only under pipeline "ts"
      and a counter key only under pipeline "count", for an action that spells the other slot's pipeline and
      action; timestamp and counter keys never meet, and within a family keys determine their slots. */
  lemma KeysMeetExactly(a: Slot, b: Slot)
    requires a.Named() && b.Named()
    ensures HashKey(a) == TimestampKey(b) <==> Meets(a, b) && a.pipeline == "ts"
    ensures HashKey(a) == CounterKey(b) <==> Meets(a, b) && a.pipeline == "count"
    ensures TimestampKey(a) != CounterKey(b)
    ensures HashKey(a) == HashKey(b) <==> a == b
    ensures TimestampKey(a) == TimestampKey(b) <==> a == b
    ensures CounterKey(a) == CounterKey(b) <==> a == b
  {
    FixedParts();
    SameTail(a, b);
    var ta, tb := a.pipeline + ":" + a.action, b.pipeline + ":" + b.action;
    KeyInjective(a.runID, a.pipeline, a.action, b.runID, "ts", tb);
    KeyInjective(a.runID, a.pipeline, a.action, b.runID, "count", tb);
    KeyInjective(a.runID, "ts", ta, b.runID, "count", tb);
    KeyInjective(a.runID, a.pipeline, a.action, b.runID, b.pipeline, b.action);
    KeyInjective(a.runID, "ts", ta, b.runID, "ts", tb);
    KeyInjective(a.runID, "count", ta, b.runID, "count", tb);
  }

  /** A slot whose pipeline is neither "ts" nor "count", or whose action has no colon, meets no slot. */
  lemma PlainMeetsNothing(a: Slot, b: Slot)
    requires a.Plain()
    ensures !Meets(a, b)
  {
    JoinedHasColon(b.pipeline, b.action);
  }

  lemma KeyInRun(run: string, runID: string, part: string, rest: string)
    requires ColonFree(run) && ColonFree(runID)
    ensures "runlog:" + run + ":" <= Key(runID, part, rest) <==> run == runID
  {
    KeyRegrouped(runID, part, rest);
    var tail := runID + ":" + (part + ":" + rest);
    var k := Key(runID, part, rest);
    assert k == "runlog:" + tail;
    PrefixMeansHead(run, runID, part + ":" + rest);
    assert k[7..] == tail;
    if "runlog:" + run + ":" <= k {
      assert ("runlog:" + run + ":")[7..] == run + ":";
      assert k[7..][..|run| + 1] == run + ":";
    }
  }

  lemma RunPrefix(run: string, s: Slot)
    requires ColonFree(run) && s.Named()
    ensures run + ":" <= MemKey(s) <==> s.runID == run
    ensures "runlog:" + run + ":" <= HashKey(s) <==> s.runID == run
    ensures "runlog:" + run + ":" <= TimestampKey(s) <==> s.runID == run
    ensures "runlog:" + run + ":" <= CounterKey(s) <==> s.runID == run
  {
    var rest := s.pipeline + ":" + s.action;
    assert MemKey(s) == s.runID + ":" + rest;
    PrefixMeansHead(run, s.runID, rest);
    KeyInRun(run, s.runID, s.pipeline, s.action);
    KeyInRun(run, s.runID, "ts", rest);
    KeyInRun(run, s.runID, "count", rest);
  }

  // ---------------------------------------------------------------- the two stores agree

  /** Slots whose keys never meet. */
  ghost predicate Apart(slots: set<Slot>) {
    forall a, b | a in slots && b in slots :: !Meets(a, b)
  }

  ghost predicate AllNamed(slots: set<Slot>) {
    forall s | s in slots :: s.Named()
  }

  /** An operation on one of the slots, at an instant that fits in 64 bits of nanoseconds, or the cleanup of any run. */
  predicate OpOver(slots: set<Slot>, op: Op) {
    match op
    case Record(slot, _, _) => slot in slots
    case RecordTimestamp(slot, _, at) => slot in slots && MIN_INT64 <= at <= MAX_INT64
    case Cleanup(run) => ColonFree(run)
  }

  predicate Over(slots: set<Slot>, ops: seq<Op>) {
    forall i | 0 <= i < |ops| :: OpOver(slots, ops[i])
  }

  /** The memory store and the keyspace hold the same log for one slot. */
  ghost predicate SameSlot(m: Memory, ks: Keyspace, s: Slot) {
    && MemBucket(m, MemKey(s)) == FieldsAt(ks, HashKey(s))
    && MemCount(m, MemKey(s)) == NumberAt(ks, CounterKey(s))
    && MemTimes(m, MemKey(s)).Keys == FieldsAt(ks, TimestampKey(s)).Keys
    && (forall t | t in MemTimes(m, MemKey(s)) :: ParseInt(FieldsAt(ks, TimestampKey(s))[t]) == Some(MemTimes(m, MemKey(s))[t]))
    && HoldsHash(ks, HashKey(s)) && HoldsHash(ks, TimestampKey(s)) && HoldsNumber(ks, CounterKey(s))
  }

  ghost predicate Agree(slots: set<Slot>, m: Memory, ks: Keyspace) {
    forall s | s in slots :: SameSlot(m, ks, s)
  }

  /** Every key belongs to one of the families, for one of the slots. */
  ghost predicate Tidy(slots: set<Slot>, m: Memory, ks: Keyspace) {
    && (forall k | k in m.data :: MemNamed(slots, k))
    && (forall k | k in ks :: RedisNamed(slots, k))
  }

  ghost predicate MemNamed(slots: set<Slot>, k: string) {
    exists s :: s in slots && s.Complete() && k == MemKey(s)
  }

  ghost predicate RedisNamed(slots: set<Slot>, k: string) {
    exists s :: s in slots && s.Complete() && (k == HashKey(s) || k == TimestampKey(s) || k == CounterKey(s))
  }

  lemma RecordKeepsSlot(slots: set<Slot>, m: Memory, ks: Keyspace, op: Op, s: Slot)
    requires AllNamed(slots) && Apart(slots) && Agree(slots, m, ks) && OpOver(slots, op) && s in slots && op.Record?
    ensures SameSlot(MemApply(m, op), RedisApply(ks, op), s)
  {
    KeysMeetExactly(op.slot, s);
    KeysMeetExactly(s, op.slot);
    KeysMeetExactly(op.slot, op.slot);
    MemKeyInjective(op.slot, s);
    assert SameSlot(m, ks, s);
    assert SameSlot(m, ks, op.slot);
  }

  lemma TimestampKeepsSlot(slots: set<Slot>, m: Memory, ks: Keyspace, op: Op, s: Slot)
    requires AllNamed(slots) && Apart(slots) && Agree(slots, m, ks) && OpOver(slots, op) && s in slots && op.RecordTimestamp?
    ensures SameSlot(MemApply(m, op), RedisApply(ks, op), s)
  {
    KeysMeetExactly(op.slot, s);
    KeysMeetExactly(s, op.slot);
    MemKeyInjective(op.slot, s);
    assert SameSlot(m, ks, s);
    assert SameSlot(m, ks, op.slot);
    RoundTrip(op.at);
  }

  lemma CleanupKeepsSlot(m: Memory, ks: Keyspace, run: string, s: Slot)
    requires SameSlot(m, ks, s) && ColonFree(run) && s.Named()
    ensures SameSlot(MemApply(m, Cleanup(run)), RedisApply(ks, Cleanup(run)), s)
  {
    RunPrefix(run, s);
  }

  lemma ApplyKeepsAgreement(slots: set<Slot>, m: Memory, ks: Keyspace, op: Op)
    requires AllNamed(slots) && Apart(slots) && Agree(slots, m, ks) && OpOver(slots, op)
    ensures Agree(slots, MemApply(m, op), RedisApply(ks, op))
  {
    forall s | s in slots ensures SameSlot(MemApply(m, op), RedisApply(ks, op), s) {
      match op
      case Record(_, _, _) => RecordKeepsSlot(slots, m, ks, op, s);
      case RecordTimestamp(_, _, _) => TimestampKeepsSlot(slots, m, ks, op, s);
      case Cleanup(run) => CleanupKeepsSlot(m, ks, run, s);
    }
  }

  lemma ApplyKeepsTidy(slots: set<Slot>, m: Memory, ks: Keyspace, op: Op)
    requires Tidy(slots, m, ks) && OpOver(slots, op)
    ensures Tidy(slots, MemApply(m, op), RedisApply(ks, op))
  {
    forall k | k in MemApply(m, op).data ensures MemNamed(slots, k) {
      if k !in m.data {
        assert k == MemKey(op.slot) && op.slot.Complete();
      }
    }
    forall k | k in RedisApply(ks, op) ensures RedisNamed(slots, k) {
      NewRedisKey(slots, ks, op, k);
    }
  }

  lemma NewRedisKey(slots: set<Slot>, ks: Keyspace, op: Op, k: string)
    requires OpOver(slots, op) && k in RedisApply(ks, op) && (k in ks ==> RedisNamed(slots, k))
    ensures RedisNamed(slots, k)
  {
    if k !in ks {
      assert op.slot in slots && op.slot.Complete();
      assert k == HashKey(op.slot) || k == TimestampKey(op.slot) || k == CounterKey(op.slot);
    }
  }

  function MemRun(ops: seq<Op>): Memory {
    if ops == [] then Memory(map[], map[], map[]) else MemApply(MemRun(ops[..|ops| - 1]), ops[|ops| - 1])
  }

  function RedisRun(ops: seq<Op>): Keyspace {
    if ops == [] then map[] else RedisApply(RedisRun(ops[..|ops| - 1]), ops[|ops| - 1])
  }

  lemma {:induction false} RunsAgree(slots: set<Slot>, ops: seq<Op>)
    requires AllNamed(slots) && Apart(slots) && Over(slots, ops)
    ensures Agree(slots, MemRun(ops), RedisRun(ops)) && Tidy(slots, MemRun(ops), RedisRun(ops))
  {
    if ops != [] {
      var pre := ops[..|ops| - 1];
      RunsAgree(slots, pre);
      ApplyKeepsAgreement(slots, MemRun(pre), RedisRun(pre), ops[|ops| - 1]);
      ApplyKeepsTidy(slots, MemRun(pre), RedisRun(pre), ops[|ops| - 1]);
    }
  }

  // ---------------------------------------------------------------- what callers see

  function Lookup<V>(m: map<string, V>, k: string): Option<V> {
    if k in m then Some(m[k]) else None
  }

  function Pick(b: Bucket, ids: seq<string>): Bucket {
    map id | id in ids && id in b :: b[id]
  }

  /** The answers of a store about one slot: a payload, some payloads, the number of records, the transactions
      with a timestamp, and a timestamp. Asking a key of the wrong type is an error, and no answer. */
  datatype Answers = Answers(payload: Option<string>, payloads: Option<Bucket>, count: Option<int>, txnIDs: set<string>, at: Option<int>)

  function MemAnswers(m: Memory, s: Slot, txnID: string, ids: seq<string>): Answers {
    var k := MemKey(s);
    Answers(Lookup(MemBucket(m, k), txnID), Some(Pick(MemBucket(m, k), ids)), Some(MemCount(m, k)),
            MemTimes(m, k).Keys, Lookup(MemTimes(m, k), txnID))
  }

  function RedisTime(ks: Keyspace, s: Slot, txnID: string): Option<int> {
    match Lookup(FieldsAt(ks, TimestampKey(s)), txnID)
    case None => None
    case Some(raw) => ParseInt(raw)
  }

  function RedisAnswers(ks: Keyspace, s: Slot, txnID: string, ids: seq<string>): Answers {
    Answers(Lookup(FieldsAt(ks, HashKey(s)), txnID),
            if ids == [] || HoldsHash(ks, HashKey(s)) then Some(Pick(FieldsAt(ks, HashKey(s)), ids)) else None,
            if HoldsNumber(ks, CounterKey(s)) then Some(NumberAt(ks, CounterKey(s))) else None,
            FieldsAt(ks, TimestampKey(s)).Keys, RedisTime(ks, s, txnID))
  }

  lemma AnswersAgree(slots: set<Slot>, ops: seq<Op>, s: Slot, txnID: string, ids: seq<string>)
    requires AllNamed(slots) && Apart(slots) && Over(slots, ops) && s in slots
    ensures MemAnswers(MemRun(ops), s, txnID, ids) == RedisAnswers(RedisRun(ops), s, txnID, ids)
  {
    RunsAgree(slots, ops);
    assert SameSlot(MemRun(ops), RedisRun(ops), s);
  }

  // ---------------------------------------------------------------- the log the answers are about

  /** The payload last recorded for a transaction, since the last cleanup of its run. */
  function Latest(ops: seq<Op>, s: Slot, txnID: string): Option<string> {
    if ops == [] then None
    else
      match ops[|ops| - 1]
      case Record(slot, txn, payload) =>
        if slot == s && txn == txnID && s.Complete() && txn != "" then Some(payload) else Latest(ops[..|ops| - 1], s, txnID)
      case RecordTimestamp(_, _, _) => Latest(ops[..|ops| - 1], s, txnID)
      case Cleanup(run) => if run == s.runID then None else Latest(ops[..|ops| - 1], s, txnID)
  }

  /** The number of records since the last cleanup. */
  function Records(ops: seq<Op>, s: Slot): nat {
    if ops == [] then 0
    else
      match ops[|ops| - 1]
      case Record(slot, txn, _) => Records(ops[..|ops| - 1], s) + (if slot == s && s.Complete() && txn != "" then 1 else 0)
      case RecordTimestamp(_, _, _) => Records(ops[..|ops| - 1], s)
      case Cleanup(run) => if run == s.runID then 0 else Records(ops[..|ops| - 1], s)
  }

  /** The instant last recorded for a transaction, since the last cleanup. */
  function LatestTime(ops: seq<Op>, s: Slot, txnID: string): Option<int> {
    if ops == [] then None
    else
      match ops[|ops| - 1]
      case Record(_, _, _) => LatestTime(ops[..|ops| - 1], s, txnID)
      case RecordTimestamp(slot, txn, at) =>
        if slot == s && txn == txnID && s.Complete() && txn != "" then Some(at) else LatestTime(ops[..|ops| - 1], s, txnID)
      case Cleanup(run) => if run == s.runID then None else LatestTime(ops[..|ops| - 1], s, txnID)
  }

  lemma {:induction false} MemoryHoldsLog(slots: set<Slot>, ops: seq<Op>, s: Slot, txnID: string)
    requires AllNamed(slots) && Over(slots, ops) && s in slots
    ensures var m, k := MemRun(ops), MemKey(s);
            && Lookup(MemBucket(m, k), txnID) == Latest(ops, s, txnID)
            && MemCount(m, k) == Records(ops, s)
            && Lookup(MemTimes(m, k), txnID) == LatestTime(ops, s, txnID)
  {
    if ops != [] {
      var pre, op := ops[..|ops| - 1], ops[|ops| - 1];
      MemoryHoldsLog(slots, pre, s, txnID);
      MemoryStep(MemRun(pre), op, s, txnID);
    }
  }

  lemma MemoryStep(m: Memory, op: Op, s: Slot, txnID: string)
    requires s.Named() && (if op.Cleanup? then ColonFree(op.runID) else op.slot.Named())
    ensures var m', k := MemApply(m, op), MemKey(s);
            var mine := !op.Cleanup? && op.slot == s && s.Complete() && op.txnID != "";
            var gone := op.Cleanup? && op.runID == s.runID;
            && Lookup(MemBucket(m', k), txnID)
               == (if gone then None else if op.Record? && mine && op.txnID == txnID then Some(op.payload) else Lookup(MemBucket(m, k), txnID))
            && MemCount(m', k) == (if gone then 0 else if op.Record? && mine then MemCount(m, k) + 1 else MemCount(m, k))
            && Lookup(MemTimes(m', k), txnID)
               == (if gone then None else if op.RecordTimestamp? && mine && op.txnID == txnID then Some(op.at) else Lookup(MemTimes(m, k), txnID))
  {
    match op
    case Record(slot, _, _) => MemKeyInjective(slot, s);
    case RecordTimestamp(slot, _, _) => MemKeyInjective(slot, s);
    case Cleanup(run) => RunPrefix(run, s);
  }

  /** What both stores answer about a slot, over every run on slots that do not meet: the payload last recorded, the
      number of records and the instant last recorded since the last cleanup; for several transactions, those recorded. */
  lemma AnswersAreTheLog(slots: set<Slot>, ops: seq<Op>, s: Slot, txnID: string, ids: seq<string>)
    requires AllNamed(slots) && Apart(slots) && Over(slots, ops) && s in slots
    ensures var a := MemAnswers(MemRun(ops), s, txnID, ids);
            && a == RedisAnswers(RedisRun(ops), s, txnID, ids)
            && a.payload == Latest(ops, s, txnID) && a.count == Some(Records(ops, s)) && a.at == LatestTime(ops, s, txnID)
            && (txnID in a.txnIDs <==> LatestTime(ops, s, txnID).Some?)
            && a.payloads.Some? && Lookup(a.payloads.value, txnID) == if txnID in ids then Latest(ops, s, txnID) else None
  {
    AnswersAgree(slots, ops, s, txnID, ids);
    MemoryHoldsLog(slots, ops, s, txnID);
  }

  function SlotsOf(ops: seq<Op>): set<Slot> {
    set op | op in ops && !op.Cleanup? :: op.slot
  }

  /** After any sequence of operations on plain names the two stores give the same answers about plain names. */
  lemma StoresRefineOneLog(ops: seq<Op>, s: Slot, txnID: string, ids: seq<string>)
    requires s.Plain() && Over(SlotsOf(ops), ops) && forall t | t in SlotsOf(ops) :: t.Plain()
    ensures MemAnswers(MemRun(ops), s, txnID, ids) == RedisAnswers(RedisRun(ops), s, txnID, ids)
  {
    var slots := SlotsOf(ops) + {s};
    forall a, b | a in slots && b in slots ensures !Meets(a, b) {
      PlainMeetsNothing(a, b);
    }
    AnswersAgree(slots, ops, s, txnID, ids);
  }

  /** One record is enough to set the stores apart on slots that meet: its payload answers for the other slot's
      timestamps, or bars its counter. */
  lemma MeetingSplits(a: Slot, b: Slot)
    requires a.Named() && b.Named() && a.runID != "" && Meets(a, b)
    ensures var ops := [Record(a, "t", Format(5))];
            MemAnswers(MemRun(ops), b, "t", []) != RedisAnswers(RedisRun(ops), b, "t", [])
  {
    var ops := [Record(a, "t", Format(5))];
    assert a.action[|b.pipeline|] == ':';
    assert MemRun(ops[..0]) == Memory(map[], map[], map[]) && RedisRun(ops[..0]) == map[];
    KeysMeetExactly(a, b);
    KeysMeetExactly(a, a);
    RecordAlone(a, "t", Format(5));
    RoundTrip(5);
    if a.pipeline == "ts" {
      assert RedisTime(RedisRun(ops), b, "t") == Some(5);
    } else {
      assert !HoldsNumber(RedisRun(ops), CounterKey(b));
    }
  }

  lemma RecordAlone(a: Slot, txnID: string, payload: string)
    requires a.Named() && a.Complete() && txnID != ""
    ensures RedisRun([Record(a, txnID, payload)]) == map[HashKey(a) := Hash(map[txnID := payload]), CounterKey(a) := Number(1)]
    ensures MemRun([Record(a, txnID, payload)]) == Memory(map[MemKey(a) := map[txnID := payload]], map[MemKey(a) := 1], map[])
  {
    var ops := [Record(a, txnID, payload)];
    assert ops[..0] == [];
    assert MemRun([]) == Memory(map[], map[], map[]) && RedisRun([]) == map[];
    KeysMeetExactly(a, a);
    assert |a.action| < |a.pipeline + ":" + a.action|;
  }

  /** The two stores agree on every run over given slots if and only if no two of the slots meet, which the names
      alone decide. */
  lemma StoresAgreeExactly(slots: set<Slot>)
    requires AllNamed(slots) && forall s | s in slots :: s.runID != ""
    ensures Apart(slots) <==>
              forall ops: seq<Op>, s: Slot, txnID: string, ids: seq<string> | Over(slots, ops) && s in slots ::
                MemAnswers(MemRun(ops), s, txnID, ids) == RedisAnswers(RedisRun(ops), s, txnID, ids)
  {
    if Apart(slots) {
      forall ops: seq<Op>, s: Slot, txnID: string, ids: seq<string> | Over(slots, ops) && s in slots
        ensures MemAnswers(MemRun(ops), s, txnID, ids) == RedisAnswers(RedisRun(ops), s, txnID, ids)
      {
        AnswersAgree(slots, ops, s, txnID, ids);
      }
    } else {
      var a, b :| a in slots && b in slots && Meets(a, b);
      MeetingSplits(a, b);
      assert Over(slots, [Record(a, "t", Format(5))]);
    }
  }

  /** A cleanup empties every slot of its run and leaves every other slot as it was, in both stores. */
  lemma CleanupIsExact(m: Memory, ks: Keyspace, run: string, s: Slot, txnID: string, ids: seq<string>)
    requires ColonFree(run) && s.Named()
    ensures var a, b := MemAnswers(MemApply(m, Cleanup(run)), s, txnID, ids), RedisAnswers(RedisApply(ks, Cleanup(run)), s, txnID, ids);
            if s.runID == run then a == b == Answers(None, Some(map[]), Some(0), {}, None)
            else a == MemAnswers(m, s, txnID, ids) && b == RedisAnswers(ks, s, txnID, ids)
  {
    RunPrefix(run, s);
  }

  // ---------------------------------------------------------------- exports

  /** A payload key has four parts exactly when its action has no colon; the other families have five or more. */
  lemma FourParts(s: Slot)
    requires s.Named()
    ensures |Split(HashKey(s))| == 4 <==> ColonFree(s.action)
    ensures ColonFree(s.action) ==> Split(HashKey(s)) == ["runlog", s.runID, s.pipeline, s.action]
    ensures |Split(TimestampKey(s))| > 4 && |Split(CounterKey(s))| > 4
  {
    FixedParts();
    KeyParts(s.runID, s.pipeline, s.action);
    KeyParts(s.runID, "ts", s.pipeline + ":" + s.action);
    KeyParts(s.runID, "count", s.pipeline + ":" + s.action);
    SplitHead(s.pipeline, s.action);
    OnePart(s.action);
  }

  lemma MemExportsSlot(slots: set<Slot>, m: Memory, ks: Keyspace, s: Slot, t: string)
    requires AllNamed(slots) && Agree(slots, m, ks) && s in slots && s.Complete() && ColonFree(s.action)
    requires t in MemBucket(m, MemKey(s))
    ensures Emission(s.pipeline, s.action, t, MemBucket(m, MemKey(s))[t]) in RedisExport(ks, s.runID)
  {
    RunPrefix(s.runID, s);
    FourParts(s);
    assert SameSlot(m, ks, s);
    assert ExportsKey(ks, s.runID, HashKey(s));
  }

  lemma RedisExportsSlot(slots: set<Slot>, m: Memory, ks: Keyspace, s: Slot, t: string)
    requires AllNamed(slots) && Agree(slots, m, ks) && s in slots && t in FieldsAt(ks, HashKey(s))
    ensures Emission(s.pipeline, s.action, t, FieldsAt(ks, HashKey(s))[t]) in MemExport(m, s.runID)
  {
    MemKeyThreeParts(s);
    RunPrefix(s.runID, s);
    assert SameSlot(m, ks, s);
    assert t in m.data[MemKey(s)] && InRun(s.runID, MemKey(s));
  }

  /** Where an exported entry comes from. */
  lemma MemEmissionSlot(slots: set<Slot>, m: Memory, ks: Keyspace, run: string, e: Emission) returns (s: Slot)
    requires AllNamed(slots) && Tidy(slots, m, ks) && ColonFree(run) && e in MemExport(m, run)
    ensures s in slots && s.Complete() && s.runID == run && e.pipeline == s.pipeline && e.action == s.action
    ensures e.txnID in MemBucket(m, MemKey(s)) && MemBucket(m, MemKey(s))[e.txnID] == e.payload
  {
    var k, t :| k in m.data && InRun(run, k) && t in m.data[k] && e == MemEmission(k, t, m.data[k][t]);
    s :| s in slots && s.Complete() && k == MemKey(s);
    MemKeyThreeParts(s);
    RunPrefix(run, s);
  }

  lemma RedisWithinMem(slots: set<Slot>, m: Memory, ks: Keyspace, run: string, e: Emission)
    requires AllNamed(slots) && Agree(slots, m, ks) && Tidy(slots, m, ks) && ColonFree(run) && e in RedisExport(ks, run)
    ensures e in MemExport(m, run) && ColonFree(e.action)
  {
    var k, t :| k in ks && ExportsKey(ks, run, k) && t in FieldsAt(ks, k)
             && e == Emission(Split(k)[2], Split(k)[3], t, FieldsAt(ks, k)[t]);
    var s :| s in slots && s.Complete() && (k == HashKey(s) || k == TimestampKey(s) || k == CounterKey(s));
    FourParts(s);
    RunPrefix(run, s);
    RedisExportsSlot(slots, m, ks, s, t);
  }

  /** Over every run, Redis exports exactly what the memory store exports under actions without a colon: the
      latest payload of each such slot, and in particular no timestamp and no counter. */
  lemma ExportsExactly(slots: set<Slot>, ops: seq<Op>, run: string)
    requires AllNamed(slots) && Apart(slots) && Over(slots, ops) && ColonFree(run)
    ensures RedisExport(RedisRun(ops), run) == set e | e in MemExport(MemRun(ops), run) && ColonFree(e.action)
  {
    RunsAgree(slots, ops);
    var m, ks := MemRun(ops), RedisRun(ops);
    forall e | e in MemExport(m, run) && ColonFree(e.action) ensures e in RedisExport(ks, run) {
      var s := MemEmissionSlot(slots, m, ks, run, e);
      MemExportsSlot(slots, m, ks, s, e.txnID);
    }
    forall e | e in RedisExport(ks, run) ensures e in MemExport(m, run) && ColonFree(e.action) {
      RedisWithinMem(slots, m, ks, run, e);
    }
  }

  /** Whether a payload was recorded for a slot since the last cleanup of its run. */
  predicate Recorded(ops: seq<Op>, s: Slot) {
    ops != [] &&
    match ops[|ops| - 1]
    case Record(slot, txn, _) => (slot == s && s.Complete() && txn != "") || Recorded(ops[..|ops| - 1], s)
    case RecordTimestamp(_, _, _) => Recorded(ops[..|ops| - 1], s)
    case Cleanup(run) => run != s.runID && Recorded(ops[..|ops| - 1], s)
  }

  lemma {:induction false} RecordedMeaning(slots: set<Slot>, ops: seq<Op>, s: Slot)
    requires AllNamed(slots) && Over(slots, ops) && s in slots
    ensures Recorded(ops, s) <==> MemBucket(MemRun(ops), MemKey(s)) != map[]
  {
    if ops != [] {
      var pre, op := ops[..|ops| - 1], ops[|ops| - 1];
      RecordedMeaning(slots, pre, s);
      match op
      case Record(slot, txn, payload) =>
        MemKeyInjective(slot, s);
        assert slot == s && s.Complete() && txn != "" ==> txn in MemBucket(MemRun(ops), MemKey(s));
      case RecordTimestamp(_, _, _) =>
      case Cleanup(run) => RunPrefix(run, s);
    }
  }

  /** The two stores export the same entries of a run if and only if nothing was recorded for it, since its last
      cleanup, under an action with a colon. */
  lemma ExportsAgreeExactly(slots: set<Slot>, ops: seq<Op>, run: string)
    requires AllNamed(slots) && Apart(slots) && Over(slots, ops) && ColonFree(run)
    ensures MemExport(MemRun(ops), run) == RedisExport(RedisRun(ops), run) <==>
              forall s | s in slots && s.runID == run && Recorded(ops, s) :: ColonFree(s.action)
  {
    var m, ks := MemRun(ops), RedisRun(ops);
    RunsAgree(slots, ops);
    ExportsExactly(slots, ops, run);
    forall s | s in slots ensures Recorded(ops, s) <==> MemBucket(m, MemKey(s)) != map[] {
      RecordedMeaning(slots, ops, s);
    }
    if forall s | s in slots && s.runID == run && Recorded(ops, s) :: ColonFree(s.action) {
      forall e | e in MemExport(m, run) ensures ColonFree(e.action) {
        var s := MemEmissionSlot(slots, m, ks, run, e);
      }
    } else {
      var s :| s in slots && s.runID == run && Recorded(ops, s) && !ColonFree(s.action);
      var t :| t in MemBucket(m, MemKey(s));
      StoredIsExported(m, s, t);
    }
  }

  /** A run on which the exports differ: one record under an action with a colon, which only the memory store exports. */
  lemma ColonActionSkipped(ops: seq<Op>)
    requires ops == [Record(Slot("r", "pipeline_b", "a:b"), "t", "p")]
    ensures MemExport(MemRun(ops), "r") != RedisExport(RedisRun(ops), "r")
  {
    var s := Slot("r", "pipeline_b", "a:b");
    assert s.action[1] == ':';
    assert s.Plain();
    PlainMeetsNothing(s, s);
    assert Recorded(ops, s);
    ExportsAgreeExactly({s}, ops, "r");
  }

  lemma ExportedIsStored(m: Memory, s: Slot, e: Emission)
    requires s.Named() && e in MemExport(m, s.runID) && e.pipeline == s.pipeline && e.action == s.action
    ensures Lookup(MemBucket(m, MemKey(s)), e.txnID) == Some(e.payload)
  {
    MemKeyThreeParts(s);
    RunPrefix(s.runID, s);
    var k, t :| k in m.data && InRun(s.runID, k) && t in m.data[k] && e == MemEmission(k, t, m.data[k][t]);
    assert SplitN(k, 3)[1..] == [s.pipeline, s.action] == SplitN(MemKey(s), 3)[1..];
    SameRunSameParts(s.runID, k, MemKey(s));
  }

  lemma StoredIsExported(m: Memory, s: Slot, txnID: string)
    requires s.Named() && txnID in MemBucket(m, MemKey(s))
    ensures Emission(s.pipeline, s.action, txnID, MemBucket(m, MemKey(s))[txnID]) in MemExport(m, s.runID)
  {
    MemKeyThreeParts(s);
    RunPrefix(s.runID, s);
    assert txnID in m.data[MemKey(s)] && InRun(s.runID, MemKey(s));
  }

  /** What the memory store exports for a run is exactly what Get answers for its slots. */
  lemma ExportIsComplete(m: Memory, s: Slot, txnID: string, payload: string)
    requires s.Named()
    ensures Emission(s.pipeline, s.action, txnID, payload) in MemExport(m, s.runID)
       <==> MemAnswers(m, s, txnID, []).payload == Some(payload)
  {
    if Emission(s.pipeline, s.action, txnID, payload) in MemExport(m, s.runID) {
      ExportedIsStored(m, s, Emission(s.pipeline, s.action, txnID, payload));
    } else if txnID in MemBucket(m, MemKey(s)) {
      StoredIsExported(m, s, txnID);
    }
  }

  // ---------------------------------------------------------------- the imperative forms

  /** Deleting the keys with a prefix, one by one. */
  method DropPrefix<V>(m: map<string, V>, prefix: string) returns (r: map<string, V>)
    ensures r == map k | k in m && !(prefix <= k) :: m[k]
  {
    r := m;
    var todo := m.Keys;
    while todo != {}
      invariant todo <= m.Keys
      invariant r == map k | k in m && (k in todo || !(prefix <= k)) :: m[k]
      decreases todo
    {
      var k :| k in todo;
      if prefix <= k {
        r := r - {k};
      }
      todo := todo - {k};
    }
  }

  /** The entries of one bucket, each once, added to what was emitted before. */
  method EmitBucket(pipeline: string, action: string, b: Bucket, before: seq<Emission>) returns (out: seq<Emission>)
    requires Distinct(before)
    requires forall e | e in before :: !(e.pipeline == pipeline && e.action == action)
    ensures Distinct(out)
    ensures forall e :: e in out <==>
              e in before || (e.pipeline == pipeline && e.action == action && e.txnID in b && e.payload == b[e.txnID])
  {
    out := before;
    var todo := b.Keys;
    while todo != {}
      invariant todo <= b.Keys
      invariant Distinct(out)
      invariant forall e :: e in out <==>
                  (e in before || (e.pipeline == pipeline && e.action == action && e.txnID in b.Keys - todo && e.payload == b[e.txnID]))
      decreases todo
    {
      var t :| t in todo;
      assert Emission(pipeline, action, t, b[t]) !in out;
      out := out + [Emission(pipeline, action, t, b[t])];
      todo := todo - {t};
    }
  }

  predicate FromBucket(e: Emission, k: string, b: Bucket)
    requires |SplitN(k, 3)| == 3
  {
    e.pipeline == SplitN(k, 3)[1] && e.action == SplitN(k, 3)[2] && e.txnID in b && e.payload == b[e.txnID]
  }

  predicate EntryOf(e: Emission, parts: seq<string>, b: Bucket) {
    |parts| == 4 && e.pipeline == parts[2] && e.action == parts[3] && e.txnID in b && e.payload == b[e.txnID]
  }

  ghost predicate Distinct(es: seq<Emission>) {
    forall i, j | 0 <= i < j < |es| :: es[i] != es[j]
  }

  class MemoryStore {
    var data: map<string, Bucket>
    var counters: map<string, nat>
    var timestamps: map<string, map<string, int>>

    function State(): Memory
      reads this
    {
      Memory(data, counters, timestamps)
    }

    constructor ()
      ensures State() == MemRun([])
    {
      data, counters, timestamps := map[], map[], map[];
    }

    method Record(slot: Slot, txnID: string, payload: string)
      modifies this
      ensures State() == MemApply(old(State()), Op.Record(slot, txnID, payload))
    {
      if !slot.Complete() || txnID == "" {
        return;
      }
      var key := MemKey(slot);
      ghost var before := State();
      if key !in data {
        data := data[key := map[]];
      }
      data := data[key := data[key][txnID := payload]];
      assert data == before.data[key := MemBucket(before, key)[txnID := payload]];
      if key !in counters {
        counters := counters[key := 0];
      }
      counters := counters[key := counters[key] + 1];
      assert counters == before.counters[key := MemCount(before, key) + 1];
    }

    method RecordTimestamp(slot: Slot, txnID: string, at: int)
      modifies this
      ensures State() == MemApply(old(State()), Op.RecordTimestamp(slot, txnID, at))
    {
      if !slot.Complete() || txnID == "" {
        return;
      }
      var key := MemKey(slot);
      if key !in timestamps {
        timestamps := timestamps[key := map[]];
      }
      timestamps := timestamps[key := timestamps[key][txnID := at]];
    }

    method Cleanup(runID: string)
      modifies this
      ensures State() == MemApply(old(State()), Op.Cleanup(runID))
    {
      data := DropPrefix(data, runID + ":");
      counters := DropPrefix(counters, runID + ":");
      timestamps := DropPrefix(timestamps, runID + ":");
    }

    method GetMulti(slot: Slot, ids: seq<string>) returns (out: Bucket)
      ensures out == Pick(MemBucket(State(), MemKey(slot)), ids)
    {
      out := map[];
      var bucket := MemBucket(State(), MemKey(slot));
      for i := 0 to |ids|
        invariant out == Pick(bucket, ids[..i])
      {
        assert ids[..i + 1] == ids[..i] + [ids[i]];
        if ids[i] in bucket {
          out := out[ids[i] := bucket[ids[i]]];
        }
      }
      assert ids[..|ids|] == ids;
    }

    /** The visitor sees every entry of the run once. */
    method Export(runID: string) returns (out: seq<Emission>)
      ensures Distinct(out)
      ensures forall e :: e in out <==> e in MemExport(State(), runID)
    {
      out := [];
      var todo := data.Keys;
      while todo != {}
        invariant todo <= data.Keys
        invariant Distinct(out)
        invariant forall e :: e in out <==> exists k | k in data.Keys - todo && InRun(runID, k) :: FromBucket(e, k, data[k])
        decreases todo
      {
        var k :| k in todo;
        var parts := SplitN(k, 3);
        if runID + ":" <= k && |parts| == 3 {
          forall e | e in out ensures !(e.pipeline == parts[1] && e.action == parts[2]) {
            var l :| l in data.Keys - todo && InRun(runID, l) && FromBucket(e, l, data[l]);
            if e.pipeline == parts[1] && e.action == parts[2] {
              assert SplitN(l, 3)[1..] == parts[1..];
              SameRunSameParts(runID, k, l);
            }
          }
          out := EmitBucket(parts[1], parts[2], data[k], out);
        }
        todo := todo - {k};
      }
    }
  }

  lemma SameExportSameKey(ks: Keyspace, runID: string, k: string, l: string)
    requires ExportsKey(ks, runID, k) && ExportsKey(ks, runID, l)
    ensures Split(k)[2] == Split(l)[2] && Split(k)[3] == Split(l)[3] ==> k == l
  {
    if Split(k)[2] == Split(l)[2] && Split(k)[3] == Split(l)[3] {
      assert Split(k) == Split(l);
      SplitInjective(k, l);
    }
  }

  class RedisStore {
    var keys: Keyspace

    constructor ()
      ensures keys == RedisRun([])
    {
      keys := map[];
    }

    /** `setOk` and `incrOk` say whether the driver's calls reach the server. An error leaves the counter alone when
        the payload could not be set. */
    method Record(slot: Slot, txnID: string, payload: string, setOk: bool, incrOk: bool) returns (ok: bool)
      modifies this
      ensures !slot.Complete() || txnID == "" ==> ok && keys == old(keys)
      ensures slot.Complete() && txnID != "" && setOk && incrOk ==> keys == RedisApply(old(keys), Op.Record(slot, txnID, payload))
      ensures slot.Complete() && txnID != "" && !setOk ==> keys == old(keys)
      ensures slot.Complete() && txnID != "" && setOk && !incrOk ==> keys == HSet(old(keys), HashKey(slot), txnID, payload)
      ensures slot.Complete() && txnID != "" ==>
                (ok <==> setOk && HoldsHash(old(keys), HashKey(slot)) && incrOk && HoldsNumber(keys, CounterKey(slot)))
    {
      if !slot.Complete() || txnID == "" {
        return true;
      }
      var hk := HashKey(slot);
      if !setOk || !HoldsHash(keys, hk) {
        return false;
      }
      keys := HSet(keys, hk, txnID, payload);
      var ck := CounterKey(slot);
      if !incrOk {
        return false;
      }
      ok := HoldsNumber(keys, ck);
      keys := Incr(keys, ck);
    }

    method RecordTimestamp(slot: Slot, txnID: string, at: int, setOk: bool) returns (ok: bool)
      modifies this
      ensures keys == if setOk then RedisApply(old(keys), Op.RecordTimestamp(slot, txnID, at)) else old(keys)
      ensures ok <==> !slot.Complete() || txnID == "" || (setOk && HoldsHash(old(keys), TimestampKey(slot)))
    {
      if !slot.Complete() || txnID == "" {
        return true;
      }
      if !setOk {
        return false;
      }
      ok := HoldsHash(keys, TimestampKey(slot));
      keys := HSet(keys, TimestampKey(slot), txnID, Format(at));
    }

    method Cleanup(runID: string)
      modifies this
      ensures keys == RedisApply(old(keys), Op.Cleanup(runID))
    {
      keys := DropPrefix(keys, "runlog:" + runID + ":");
    }

    /** The visitor sees every payload entry of the run once, and never a timestamp or a counter. */
    method Export(runID: string) returns (out: seq<Emission>)
      ensures Distinct(out)
      ensures forall e :: e in out <==> e in RedisExport(keys, runID)
    {
      out := [];
      var todo := keys.Keys;
      while todo != {}
        invariant todo <= keys.Keys
        invariant Distinct(out)
        invariant forall e :: e in out <==> exists k | k in keys.Keys - todo && ExportsKey(keys, runID, k) ::
                    EntryOf(e, Split(k), FieldsAt(keys, k))
        decreases todo
      {
        var k :| k in todo;
        var parts := Split(k);
        if ExportsKey(keys, runID, k) {
          forall e | e in out ensures !(e.pipeline == parts[2] && e.action == parts[3]) {
            var l :| l in keys.Keys - todo && ExportsKey(keys, runID, l) && EntryOf(e, Split(l), FieldsAt(keys, l));
            SameExportSameKey(keys, runID, k, l);
          }
          out := EmitBucket(parts[2], parts[3], FieldsAt(keys, k), out);
        }
        todo := todo - {k};
      }
    }
  }
}
