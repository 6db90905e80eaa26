/** The session store's keyed state: transaction routes, metric counters and stored documents in one flat key
    space. */
module SessionStore {
  import opened Names
  import opened Decimal
  import opened Wrappers

  type Keyspace = map<string, string>

  /** Documents the store keeps under keys of their own. */
  datatype Doc =
    | SessionDoc(id: string)
    | CatalogDoc(id: string)
    | PreorderDoc(id: string)
    | BppIndex(id: string)
    | RunDoc(id: string)
    | DiscoveryDoc(id: string)

  datatype Op =
    | LinkTxn(txnID: string, route: Route)
    | IncrMetric(metric: Metric, delta: int)
    | Put(doc: Doc, data: string)

  datatype Route = Route(runID: string, sessionID: string, verified: bool)

  datatype Metric = Metric(runID: string, action: string, field: string)

  function TxnKey(txnID: string): string {
    "txn" + ":" + txnID
  }

  function MetricKey(m: Metric): string {
    "run" + ":" + (m.runID + ":" + ("m" + ":" + (m.action + ":" + m.field)))
  }

  function DocKey(d: Doc): string {
    match d
    case SessionDoc(id) => "session" + ":" + id
    case CatalogDoc(id) => "session" + ":" + (id + ":catalog")
    case PreorderDoc(id) => "session" + ":" + (id + ":preorder")
    case BppIndex(id) => "bpp_session" + ":" + id
    case RunDoc(id) => "run" + ":" + id
    case DiscoveryDoc(id) => "discovery" + ":" + id
  }

  function RouteText(r: Route): string {
    r.runID + ":" + (r.sessionID + ":" + (if r.verified then "1" else "0"))
  }

  /** A route read back: two parts are the older format, whose callbacks are verified. */
  function ReadRoute(s: string): Option<Route> {
    var parts := SplitN(s, 3);
    if |parts| < 2 then None
    else Some(Route(parts[0], parts[1], |parts| == 2 || (|parts| == 3 && parts[2] == "1")))
  }

  function RouteAt(ks: Keyspace, txnID: string): Option<Route> {
    if TxnKey(txnID) in ks then ReadRoute(ks[TxnKey(txnID)]) else None
  }

  predicate InRange(n: int) {
    MIN_INT64 <= n <= MAX_INT64
  }

  function NumberAt(ks: Keyspace, k: string): Option<int> {
    if k in ks then ParseInt(ks[k]) else Some(0)
  }

  /** An increment is refused when the value is no number or the sum leaves 64 bits. */
  function IncrBy(ks: Keyspace, k: string, delta: int): Keyspace {
    var n := NumberAt(ks, k);
    if n.None? || !InRange(n.value + delta) then ks else ks[k := Format(n.value + delta)]
  }

  function Apply(ks: Keyspace, op: Op): Keyspace {
    match op
    case LinkTxn(txn, route) => ks[TxnKey(txn) := RouteText(route)]
    case IncrMetric(m, delta) => IncrBy(ks, MetricKey(m), delta)
    case Put(doc, data) => ks[DocKey(doc) := data]
  }

  function Run(ops: seq<Op>): Keyspace {
    if ops == [] then map[] else Apply(Run(ops[..|ops| - 1]), ops[|ops| - 1])
  }

  predicate PlainMetric(m: Metric) {
    ColonFree(m.runID) && ColonFree(m.action) && ColonFree(m.field)
  }

  predicate PlainOp(op: Op) {
    match op
    case LinkTxn(_, route) => ColonFree(route.runID) && ColonFree(route.sessionID)
    case IncrMetric(m, _) => PlainMetric(m)
    case Put(doc, _) => doc.RunDoc? ==> ColonFree(doc.id)
  }

  // ---------------------------------------------------------------- key families

  lemma PrefixColonFree()
    ensures ColonFree("txn") && ColonFree("run") && ColonFree("session")
    ensures ColonFree("bpp_session") && ColonFree("discovery") && ColonFree("m")
  {
  }

  lemma PrefixesDiffer()
    ensures "txn" != "run"
    ensures forall s | s in {"session", "bpp_session", "discovery"} :: |s| > 3
  {
    assert "txn"[0] == 't' && "run"[0] == 'r';
  }

  lemma HeadsDiffer(a: string, x: string, b: string, y: string)
    requires ColonFree(a) && ColonFree(b) && a != b
    ensures a + ":" + x != b + ":" + y
  {
    if a + ":" + x == b + ":" + y {
      HeadAndRest(a, x, b, y);
    }
  }

  lemma MetricKeyInjective(m: Metric, n: Metric)
    requires PlainMetric(m) && PlainMetric(n) && MetricKey(m) == MetricKey(n)
    ensures m == n
  {
    PrefixColonFree();
    var mr, nr := m.action + ":" + m.field, n.action + ":" + n.field;
    HeadAndRest("run", m.runID + ":" + ("m" + ":" + mr), "run", n.runID + ":" + ("m" + ":" + nr));
    HeadAndRest(m.runID, "m" + ":" + mr, n.runID, "m" + ":" + nr);
    HeadAndRest("m", mr, "m", nr);
    HeadAndRest(m.action, m.field, n.action, n.field);
  }

  lemma MetricIsNotRun(m: Metric, id: string)
    requires PlainMetric(m) && ColonFree(id)
    ensures MetricKey(m) != DocKey(RunDoc(id))
  {
    PrefixColonFree();
    var rest := "m" + ":" + (m.action + ":" + m.field);
    if MetricKey(m) == DocKey(RunDoc(id)) {
      HeadAndRest("run", m.runID + ":" + rest, "run", id);
    }
  }

  /** Routes, metrics and documents never share a key. */
  lemma FamiliesApart(txnID: string, m: Metric, d: Doc)
    requires PlainMetric(m) && (d.RunDoc? ==> ColonFree(d.id))
    ensures TxnKey(txnID) != MetricKey(m) && TxnKey(txnID) != DocKey(d) && MetricKey(m) != DocKey(d)
  {
    PrefixColonFree();
    PrefixesDiffer();
    var rest := m.runID + ":" + ("m" + ":" + (m.action + ":" + m.field));
    HeadsDiffer("txn", txnID, "run", rest);
    match d
    case SessionDoc(id) => HeadsDiffer("txn", txnID, "session", id); HeadsDiffer("run", rest, "session", id);
    case CatalogDoc(id) => HeadsDiffer("txn", txnID, "session", id + ":catalog"); HeadsDiffer("run", rest, "session", id + ":catalog");
    case PreorderDoc(id) => HeadsDiffer("txn", txnID, "session", id + ":preorder"); HeadsDiffer("run", rest, "session", id + ":preorder");
    case BppIndex(id) => HeadsDiffer("txn", txnID, "bpp_session", id); HeadsDiffer("run", rest, "bpp_session", id);
    case RunDoc(id) => HeadsDiffer("txn", txnID, "run", id); MetricIsNotRun(m, id);
    case DiscoveryDoc(id) => HeadsDiffer("txn", txnID, "discovery", id); HeadsDiffer("run", rest, "discovery", id);
  }

  /** Documents of plain ids each have a key of their own. */
  lemma DocKeyInjective(d: Doc, e: Doc)
    requires ColonFree(d.id) && ColonFree(e.id)
    ensures DocKey(d) == DocKey(e) <==> d == e
  {
    DocHeads();
    if DocKey(d) == DocKey(e) {
      DocKeyParts(d);
      DocKeyParts(e);
      HeadAndRest(DocHead(d), DocTail(d), DocHead(e), DocTail(e));
      if d.CatalogDoc? || d.PreorderDoc? {
        SessionDocs(d, e);
      } else if e.CatalogDoc? || e.PreorderDoc? {
        SessionDocs(e, d);
      }
    }
  }

  function DocHead(d: Doc): string {
    match d
    case BppIndex(_) => "bpp_session"
    case RunDoc(_) => "run"
    case DiscoveryDoc(_) => "discovery"
    case _ => "session"
  }

  function DocTail(d: Doc): string {
    match d
    case CatalogDoc(id) => id + ":catalog"
    case PreorderDoc(id) => id + ":preorder"
    case _ => d.id
  }

  lemma DocKeyParts(d: Doc)
    ensures DocKey(d) == DocHead(d) + ":" + DocTail(d)
  {
  }

  lemma DocHeads()
    ensures |"bpp_session"| == 11 && |"run"| == 3 && |"discovery"| == 9 && |"session"| == 7
    ensures ColonFree("bpp_session") && ColonFree("run") && ColonFree("discovery") && ColonFree("session")
  {
  }

  lemma SessionDocs(d: Doc, e: Doc)
    requires ColonFree(d.id) && ColonFree(e.id) && (d.CatalogDoc? || d.PreorderDoc?)
    requires DocHead(d) == DocHead(e) && DocTail(d) == DocTail(e)
    ensures d == e
  {
    DocHeads();
    assert |"catalog"| == 7 && |"preorder"| == 8;
    var rest := if d.CatalogDoc? then "catalog" else "preorder";
    assert DocTail(d) == d.id + ":" + rest;
    assert DocTail(d)[|d.id|] == ':';
    if e.CatalogDoc? || e.PreorderDoc? {
      var rest' := if e.CatalogDoc? then "catalog" else "preorder";
      assert DocTail(e) == e.id + ":" + rest';
      HeadAndRest(d.id, rest, e.id, rest');
    }
  }

  lemma TxnKeyInjective(s: string, t: string)
    ensures TxnKey(s) == TxnKey(t) <==> s == t
  {
    PrefixColonFree();
    if TxnKey(s) == TxnKey(t) {
      HeadAndRest("txn", s, "txn", t);
    }
  }

  // ---------------------------------------------------------------- routes

  lemma RoutePlain(r: Route)
    requires ColonFree(r.runID) && ColonFree(r.sessionID)
    ensures ReadRoute(RouteText(r)) == Some(r)
  {
    var flag := if r.verified then "1" else "0";
    var rest := r.sessionID + ":" + flag;
    ColonAfter(r.runID, rest);
    ColonAfter(r.sessionID, flag);
    assert RouteText(r)[..|r.runID|] == r.runID && RouteText(r)[|r.runID| + 1..] == rest;
    assert rest[..|r.sessionID|] == r.sessionID && rest[|r.sessionID| + 1..] == flag;
    assert SplitN(rest, 2) == [r.sessionID] + SplitN(flag, 1);
  }

  /** The older form of a route, two parts without a flag, reads as verified; a text without a colon is no route. */
  lemma OlderRoute(runID: string, sessionID: string)
    requires ColonFree(runID) && ColonFree(sessionID)
    ensures ReadRoute(runID) == None
    ensures ReadRoute(runID + ":" + sessionID) == Some(Route(runID, sessionID, true))
  {
    ColonAfter(runID, sessionID);
    var s := runID + ":" + sessionID;
    assert s[..|runID|] == runID && s[|runID| + 1..] == sessionID;
  }

  /** What is read of a route is always colon free. */
  lemma ReadIsColonFree(s: string)
    requires ReadRoute(s).Some?
    ensures ColonFree(ReadRoute(s).value.runID)
    ensures |SplitN(s, 3)| == 3 ==> ColonFree(ReadRoute(s).value.sessionID)
  {
    BeforeFirstColon(s);
    var rest := s[FirstColon(s) + 1..];
    BeforeFirstColon(rest);
    assert SplitN(s, 3)[1] == SplitN(rest, 2)[0];
  }

  lemma RouteHasThreeParts(r: Route)
    requires ColonFree(r.runID)
    ensures |SplitN(RouteText(r), 3)| == 3
  {
    var rest := r.sessionID + ":" + (if r.verified then "1" else "0");
    ColonAfter(r.runID, rest);
    assert RouteText(r)[|r.runID| + 1..] == rest;
    SessionColon(r.sessionID, if r.verified then "1" else "0");
    assert |SplitN(rest, 2)| == 2;
  }

  lemma SessionColon(s: string, flag: string)
    ensures FirstColon(s + ":" + flag) < |s + ":" + flag|
  {
    FirstColonFound(s);
    FirstColonInPrefix(s + ":", s + ":" + flag);
  }

  /** A stored route is read back exactly when its run and session ids have no colon. */
  lemma RouteRoundTrip(r: Route)
    ensures ReadRoute(RouteText(r)) == Some(r) <==> ColonFree(r.runID) && ColonFree(r.sessionID)
  {
    if ColonFree(r.runID) && ColonFree(r.sessionID) {
      RoutePlain(r);
    } else if ReadRoute(RouteText(r)) == Some(r) {
      ReadIsColonFree(RouteText(r));
      RouteHasThreeParts(r);
      assert false;
    }
  }

  /** The last route given to a transaction. */
  function LastRoute(ops: seq<Op>, txnID: string): Option<Route> {
    if ops == [] then None
    else
      var op := ops[|ops| - 1];
      if op.LinkTxn? && op.txnID == txnID then Some(op.route) else LastRoute(ops[..|ops| - 1], txnID)
  }

  lemma StepRoute(ks: Keyspace, op: Op, txnID: string)
    requires PlainOp(op)
    ensures RouteAt(Apply(ks, op), txnID) == if op.LinkTxn? && op.txnID == txnID then Some(op.route) else RouteAt(ks, txnID)
  {
    match op
    case LinkTxn(txn, route) =>
      TxnKeyInjective(txn, txnID);
      RoutePlain(route);
    case IncrMetric(m, delta) => FamiliesApart(txnID, m, SessionDoc(""));
    case Put(doc, data) => FamiliesApart(txnID, Metric("", "", ""), doc);
  }

  /** Over every sequence of writes, a transaction is routed as it was last linked, whatever else is stored. */
  lemma {:induction false} RoutesExact(ops: seq<Op>, txnID: string)
    requires forall i | 0 <= i < |ops| :: PlainOp(ops[i])
    ensures RouteAt(Run(ops), txnID) == LastRoute(ops, txnID)
  {
    if ops != [] {
      var n := |ops| - 1;
      RoutesExact(ops[..n], txnID);
      StepRoute(Run(ops[..n]), ops[n], txnID);
    }
  }

  // ---------------------------------------------------------------- metrics

  /** The sum of a metric's increments, leaving out those that would leave 64 bits. */
  function Total(ops: seq<Op>, m: Metric): (t: int)
    ensures InRange(t)
  {
    if ops == [] then 0
    else
      var t, op := Total(ops[..|ops| - 1], m), ops[|ops| - 1];
      if op.IncrMetric? && op.metric == m && InRange(t + op.delta) then t + op.delta else t
  }

  /** An increment adds to a counter when the sum is a 64-bit number, and is refused otherwise; other keys stay. */
  lemma IncrExactly(ks: Keyspace, k: string, delta: int, n: int)
    requires NumberAt(ks, k) == Some(n)
    ensures var r := IncrBy(ks, k, delta);
            if -9223372036854775808 <= n + delta <= 9223372036854775807 then r == ks[k := Format(n + delta)] && NumberAt(r, k) == Some(n + delta)
            else r == ks
  {
    RoundTrip(n + delta);
  }

  lemma StepMetric(ks: Keyspace, op: Op, m: Metric, t: int)
    requires PlainOp(op) && PlainMetric(m) && InRange(t) && NumberAt(ks, MetricKey(m)) == Some(t)
    ensures NumberAt(Apply(ks, op), MetricKey(m))
         == Some(if op.IncrMetric? && op.metric == m && InRange(t + op.delta) then t + op.delta else t)
  {
    match op
    case LinkTxn(txn, route) => FamiliesApart(txn, m, SessionDoc(""));
    case IncrMetric(n, delta) =>
      RoundTrip(t + delta);
      if n != m && MetricKey(n) == MetricKey(m) {
        MetricKeyInjective(n, m);
      }
    case Put(doc, data) => FamiliesApart("", m, doc);
  }

  /** Over every sequence of writes, a metric reads as the sum of its own increments. */
  lemma {:induction false} MetricsExact(ops: seq<Op>, m: Metric)
    requires PlainMetric(m) && forall i | 0 <= i < |ops| :: PlainOp(ops[i])
    ensures NumberAt(Run(ops), MetricKey(m)) == Some(Total(ops, m))
  {
    if ops != [] {
      var n := |ops| - 1;
      MetricsExact(ops[..n], m);
      StepMetric(Run(ops[..n]), ops[n], m, Total(ops[..n], m));
    }
  }

  // ---------------------------------------------------------------- the store

  datatype ActionMetrics = ActionMetrics(sent: int, success: int, failure: int, timeout: int)

  const ZERO := ActionMetrics(0, 0, 0, 0)

  function With(a: ActionMetrics, field: string, v: int): ActionMetrics {
    if field == "sent" then a.(sent := v)
    else if field == "success" then a.(success := v)
    else if field == "failure" then a.(failure := v)
    else if field == "timeout" then a.(timeout := v)
    else a
  }

  const ACTIONS := ["select", "on_select", "init", "on_init", "confirm", "on_confirm"]
  const FIELDS := ["sent", "success", "failure", "timeout"]

  /** A missing or unreadable counter counts as zero. */
  function ValueAt(ks: Keyspace, m: Metric): int {
    var n := NumberAt(ks, MetricKey(m));
    if n.Some? then n.value else 0
  }

  function MetricsAt(ks: Keyspace, runID: string, action: string): ActionMetrics {
    ActionMetrics(ValueAt(ks, Metric(runID, action, "sent")), ValueAt(ks, Metric(runID, action, "success")),
                  ValueAt(ks, Metric(runID, action, "failure")), ValueAt(ks, Metric(runID, action, "timeout")))
  }

  /** The metrics of an action with the first fields read. */
  function Partly(ks: Keyspace, runID: string, action: string, j: nat): ActionMetrics
    requires j <= |FIELDS|
  {
    if j == 0 then ZERO else With(Partly(ks, runID, action, j - 1), FIELDS[j - 1], ValueAt(ks, Metric(runID, action, FIELDS[j - 1])))
  }

  lemma FieldsDiffer()
    ensures "success" != "failure" && "success" != "timeout" && "failure" != "timeout"
    ensures |"sent"| == 4 && |"success"| == |"failure"| == |"timeout"| == 7
  {
    assert "success"[0] == 's' && "failure"[0] == 'f' && "timeout"[0] == 't';
  }

  /** Once every field is read, each holds its own counter. */
  lemma AllRead(ks: Keyspace, runID: string, action: string)
    ensures Partly(ks, runID, action, 4) == MetricsAt(ks, runID, action)
  {
    FieldsDiffer();
    var m := MetricsAt(ks, runID, action);
    assert Partly(ks, runID, action, 1) == ZERO.(sent := m.sent);
    assert Partly(ks, runID, action, 2) == ZERO.(sent := m.sent, success := m.success);
    assert Partly(ks, runID, action, 3) == m.(timeout := 0);
  }

  /** The metrics read for an action of a run are the sums of the increments of exactly that run, action and field. */
  lemma RunMetricsExact(ops: seq<Op>, runID: string, action: string)
    requires ColonFree(runID) && ColonFree(action) && forall i | 0 <= i < |ops| :: PlainOp(ops[i])
    ensures MetricsAt(Run(ops), runID, action)
         == ActionMetrics(Total(ops, Metric(runID, action, "sent")), Total(ops, Metric(runID, action, "success")),
                          Total(ops, Metric(runID, action, "failure")), Total(ops, Metric(runID, action, "timeout")))
  {
    forall f | f in FIELDS ensures ValueAt(Run(ops), Metric(runID, action, f)) == Total(ops, Metric(runID, action, f)) {
      assert ColonFree(f);
      MetricsExact(ops, Metric(runID, action, f));
    }
    assert FIELDS[0] in FIELDS && FIELDS[1] in FIELDS && FIELDS[2] in FIELDS && FIELDS[3] in FIELDS;
  }

  class RedisStore {
    var keys: Keyspace

    constructor ()
      ensures keys == Run([])
    {
      keys := map[];
    }

    method Link(txnID: string, runID: string, sessionID: string, verified: bool)
      modifies this
      ensures keys == Apply(old(keys), LinkTxn(txnID, Route(runID, sessionID, verified)))
    {
      var ver := "0";
      if verified {
        ver := "1";
      }
      var val := runID + ":" + (sessionID + ":" + ver);
      keys := keys["txn" + ":" + txnID := val];
    }

    method GetTxnRoute(txnID: string) returns (r: Option<Route>)
      ensures r == RouteAt(keys, txnID)
    {
      if TxnKey(txnID) !in keys {
        return None;
      }
      var parts := SplitN(keys[TxnKey(txnID)], 3);
      if |parts| < 2 {
        return None;
      }
      var verified := false;
      if |parts| == 3 {
        verified := parts[2] == "1";
      }
      if |parts| == 2 {
        verified := true;
      }
      r := Some(Route(parts[0], parts[1], verified));
    }

    method Incr(runID: string, action: string, field: string, delta: int) returns (ok: bool)
      modifies this
      ensures keys == Apply(old(keys), IncrMetric(Metric(runID, action, field), delta))
      ensures ok <==> var n := NumberAt(old(keys), MetricKey(Metric(runID, action, field))); n.Some? && InRange(n.value + delta)
    {
      var k := MetricKey(Metric(runID, action, field));
      var n := if k in keys then ParseInt(keys[k]) else Some(0);
      if n.None? || !InRange(n.value + delta) {
        return false;
      }
      keys := keys[k := Format(n.value + delta)];
      ok := true;
    }

    method GetMetrics(runID: string) returns (m: map<string, ActionMetrics>)
      ensures m.Keys == set a | a in ACTIONS
      ensures forall a | a in ACTIONS :: m[a] == MetricsAt(keys, runID, a)
    {
      m := map[];
      for i := 0 to |ACTIONS|
        invariant m.Keys == set a | a in ACTIONS[..i]
        invariant forall a | a in ACTIONS[..i] :: m[a] == MetricsAt(keys, runID, a)
      {
        var am := ReadAction(runID, ACTIONS[i]);
        m := m[ACTIONS[i] := am];
        assert ACTIONS[..i + 1] == ACTIONS[..i] + [ACTIONS[i]];
      }
      assert ACTIONS[..|ACTIONS|] == ACTIONS;
    }

    method ReadAction(runID: string, action: string) returns (am: ActionMetrics)
      ensures am == MetricsAt(keys, runID, action)
    {
      am := ZERO;
      for j := 0 to |FIELDS|
        invariant am == Partly(keys, runID, action, j)
      {
        var v := ValueAt(keys, Metric(runID, action, FIELDS[j]));
        am := With(am, FIELDS[j], v);
      }
      AllRead(keys, runID, action);
    }
  }
}
