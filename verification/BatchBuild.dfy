/** From stored callback bodies to the next stage's requests, and the causality of a whole run. */
module BatchBuild {
  import opened Json
  import Enrichment
  import EnrichmentLaws
  import EnrichmentValues
  import ErrorInjection
  import opened Wrappers

  /** Decoding into a map accepts objects, and null as no map at all. */
  predicate Decodes(b: Body) {
    b.Tree? && b.json.Obj?
  }

  datatype Action = Select | Init | Confirm | OnSelect | OnInit | OnConfirm

  function Name(a: Action): string {
    match a
    case Select => "select"
    case Init => "init"
    case Confirm => "confirm"
    case OnSelect => "on_select"
    case OnInit => "on_init"
    case OnConfirm => "on_confirm"
  }

  predicate IsCallback(a: Action) {
    a.OnSelect? || a.OnInit? || a.OnConfirm?
  }

  // ---------------------------------------------------------------- transaction ids

  /** The transaction id an envelope carries; `show` prints any value, as the formatter of the code does. */
  function IdOf(show: Json -> string, full: Fields): string {
    var c := ObjAt(full, "context");
    if "transaction_id" in c && c["transaction_id"] != Null then show(c["transaction_id"]) else ""
  }

  function ExtractTxnID(show: Json -> string, b: Body): string {
    if Decodes(b) then IdOf(show, b.json.fields) else ""
  }

  /** The ids of a batch, in order, without the payloads that carry none. */
  function IdsOf(show: Json -> string, ps: seq<Body>): seq<string> {
    if ps == [] then []
    else
      var id := ExtractTxnID(show, ps[|ps| - 1]);
      IdsOf(show, ps[..|ps| - 1]) + (if id != "" then [id] else [])
  }

  method ExtractTransactionIDs(show: Json -> string, selects: seq<Body>) returns (out: seq<string>)
    ensures out == IdsOf(show, selects)
  {
    out := [];
    for i := 0 to |selects|
      invariant out == IdsOf(show, selects[..i])
    {
      assert selects[..i + 1][..i] == selects[..i];
      if !Decodes(selects[i]) || !HasObj(selects[i].json.fields, "context") {
        continue;
      }
      var ctx := selects[i].json.fields["context"].fields;
      if "transaction_id" in ctx && ctx["transaction_id"] != Null {
        var txnID := show(ctx["transaction_id"]);
        if txnID != "" {
          out := out + [txnID];
        }
      }
    }
    assert selects[..|selects|] == selects;
  }

  /** Some payload of a batch carries an id. */
  ghost predicate Carried(show: Json -> string, ps: seq<Body>, id: string) {
    exists i :: 0 <= i < |ps| && ExtractTxnID(show, ps[i]) == id
  }

  lemma {:induction false} IdsAreCarried(show: Json -> string, ps: seq<Body>, id: string)
    requires id in IdsOf(show, ps)
    ensures id != "" && Carried(show, ps, id)
  {
    var n := |ps| - 1;
    if id in IdsOf(show, ps[..n]) {
      IdsAreCarried(show, ps[..n], id);
      var i :| 0 <= i < n && ExtractTxnID(show, ps[..n][i]) == id;
      assert ExtractTxnID(show, ps[i]) == id;
    } else {
      assert ExtractTxnID(show, ps[n]) == id;
    }
  }

  lemma {:induction false} CarriedAreIds(show: Json -> string, ps: seq<Body>, i: nat)
    requires i < |ps| && ExtractTxnID(show, ps[i]) != ""
    ensures ExtractTxnID(show, ps[i]) in IdsOf(show, ps)
  {
    var n := |ps| - 1;
    if i < n {
      assert ps[..n][i] == ps[i];
      CarriedAreIds(show, ps[..n], i);
    }
  }

  lemma {:induction false} IdsNoMore(show: Json -> string, ps: seq<Body>)
    ensures |IdsOf(show, ps)| <= |ps|
  {
    if ps != [] {
      IdsNoMore(show, ps[..|ps| - 1]);
    }
  }

  /** An id is extracted exactly when it is not empty and some payload carries it; there are no more ids than payloads. */
  lemma IdsMeaning(show: Json -> string, ps: seq<Body>, id: string)
    ensures id in IdsOf(show, ps) <==> id != "" && Carried(show, ps, id)
    ensures |IdsOf(show, ps)| <= |ps|
  {
    IdsNoMore(show, ps);
    if id in IdsOf(show, ps) {
      IdsAreCarried(show, ps, id);
    } else if id != "" && Carried(show, ps, id) {
      var i :| 0 <= i < |ps| && ExtractTxnID(show, ps[i]) == id;
      CarriedAreIds(show, ps, i);
    }
  }

  // ---------------------------------------------------------------- building a batch

  /** The clock and random ids of one payload. */
  datatype Supply = Supply(now: string, messageID: string, orderID: Enrichment.NonEmpty, paymentTxnID: string)

  /** What one build of a batch reads: the stored callback bodies and select requests by transaction, and the supply
      of each position. */
  datatype Source = Source(bodies: map<string, Body>, selects: map<string, Body>, supply: nat -> Supply) {
    function SelectOf(id: string): Option<Body> {
      if id in selects then Some(selects[id]) else None
    }
  }

  /** A body advances a transaction when it decodes, has a context, and does not report a refusal. */
  predicate Eligible(b: Body) {
    && Decodes(b) && HasObj(b.json.fields, "context")
    && var status := StrAt(ObjAt(ObjAt(b.json.fields, "message"), "ack"), "status"); status == "" || status == "ACK"
  }

  predicate Advances(bodies: map<string, Body>, id: string) {
    id != "" && id in bodies && Eligible(bodies[id])
  }

  function NextContext(ctx: Fields, target: Action, s: Supply): Fields {
    var c := ctx["action" := Str(Name(target))]["message_id" := Str(s.messageID)]["timestamp" := Str(s.now)];
    if "ttl" in c then c else c["ttl" := Str("PT30S")]
  }

  function Payload(full: Fields, target: Action, sel: Option<Body>, s: Supply): Fields {
    var next := full["context" := Obj(NextContext(ObjAt(full, "context"), target, s))];
    if target.Init? then Enrichment.EnrichInit(next, Enrichment.SelectedOf(sel), s.now)
    else if target.Confirm? then Enrichment.EnrichConfirm(next, Enrichment.Supply(s.now, s.orderID, s.paymentTxnID))
    else next
  }

  function PayloadFor(src: Source, target: Action, id: string, i: nat): Fields
    requires Advances(src.bodies, id)
  {
    Payload(src.bodies[id].json.fields, target, src.SelectOf(id), src.supply(i))
  }

  function Batch(src: Source, target: Action, ids: seq<string>): seq<Fields> {
    if ids == [] then []
    else
      var n := |ids| - 1;
      Batch(src, target, ids[..n]) + (if Advances(src.bodies, ids[n]) then [PayloadFor(src, target, ids[n], n)] else [])
  }

  /** The next request made of one callback body. */
  method BuildPayload(body: Fields, target: Action, select: Option<Body>, s: Supply) returns (full: Fields)
    requires HasObj(body, "context")
    ensures full == Payload(body, target, select, s)
  {
    var ctx := body["context"].fields;
    ctx := ctx["action" := Str(Name(target))];
    ctx := ctx["message_id" := Str(s.messageID)];
    ctx := ctx["timestamp" := Str(s.now)];
    if "ttl" !in ctx {
      ctx := ctx["ttl" := Str("PT30S")];
    }
    full := body["context" := Obj(ctx)];
    if target.Init? {
      full := Enrichment.EnrichInitInPlace(full, select, s.now);
    } else if target.Confirm? {
      full := Enrichment.EnrichConfirmInPlace(full, Enrichment.Supply(s.now, s.orderID, s.paymentTxnID));
    }
  }

  method BuildBatchFromCallbacks(runID: string, src: Source, target: Action, ids: seq<string>) returns (out: Option<seq<Fields>>)
    ensures out == if runID == "" then None else Some(Batch(src, target, ids))
  {
    if runID == "" {
      return None;
    }
    var batch: seq<Fields> := [];
    for i := 0 to |ids|
      invariant batch == Batch(src, target, ids[..i])
    {
      assert ids[..i + 1][..i] == ids[..i];
      var txnID := ids[i];
      if txnID == "" || txnID !in src.bodies || !Decodes(src.bodies[txnID]) {
        continue;
      }
      var full := src.bodies[txnID].json.fields;
      if HasObj(full, "message") && HasObj(full["message"].fields, "ack") {
        var status := StrAt(full["message"].fields["ack"].fields, "status");
        if status != "" && status != "ACK" {
          continue;
        }
      }
      if !HasObj(full, "context") {
        continue;
      }
      var payload := BuildPayload(full, target, src.SelectOf(txnID), src.supply(i));
      batch := batch + [payload];
    }
    assert ids[..|ids|] == ids;
    out := Some(batch);
  }

  // ---------------------------------------------------------------- a batch is a filter

  /** The ids that advance, in the order they were given. */
  function Advancing(bodies: map<string, Body>, ids: seq<string>): seq<string> {
    if ids == [] then []
    else
      var n := |ids| - 1;
      Advancing(bodies, ids[..n]) + (if Advances(bodies, ids[n]) then [ids[n]] else [])
  }

  lemma NextContextKeepsID(ctx: Fields, target: Action, s: Supply)
    ensures "transaction_id" in NextContext(ctx, target, s) <==> "transaction_id" in ctx
    ensures "transaction_id" in ctx ==> NextContext(ctx, target, s)["transaction_id"] == ctx["transaction_id"]
  {
  }

  lemma PayloadContext(full: Fields, target: Action, sel: Option<Body>, s: Supply)
    ensures ObjAt(Payload(full, target, sel, s), "context") == NextContext(ObjAt(full, "context"), target, s)
  {
    var ctx := Obj(NextContext(ObjAt(full, "context"), target, s));
    var next := full["context" := ctx];
    if target.Init? {
      EnrichmentLaws.InitContext(next, Enrichment.SelectedOf(sel), s.now);
    } else if target.Confirm? {
      EnrichmentLaws.ConfirmContext(next, Enrichment.Supply(s.now, s.orderID, s.paymentTxnID));
    }
  }

  /** The next request of a transaction carries the id its callback carried, and nothing is missing in it. */
  lemma PayloadMeaning(show: Json -> string, full: Fields, target: Action, sel: Option<Body>, s: Supply)
    ensures IdOf(show, Payload(full, target, sel, s)) == IdOf(show, full)
    ensures StrAt(ObjAt(Payload(full, target, sel, s), "context"), "action") == Name(target)
    ensures PayloadDone(target, Payload(full, target, sel, s))
  {
    PayloadContext(full, target, sel, s);
    NextContextKeepsID(ObjAt(full, "context"), target, s);
    PayloadCompletes(full, target, sel, s);
  }

  /** Nothing is missing in a request. */
  predicate PayloadDone(target: Action, p: Fields) {
    (target.Init? ==> EnrichmentLaws.InitDone(p)) && (target.Confirm? ==> EnrichmentLaws.ConfirmDone(p))
  }

  lemma PayloadCompletes(full: Fields, target: Action, sel: Option<Body>, s: Supply)
    ensures PayloadDone(target, Payload(full, target, sel, s))
  {
    var next := full["context" := Obj(NextContext(ObjAt(full, "context"), target, s))];
    if target.Init? {
      EnrichmentLaws.InitCompletes(next, Enrichment.SelectedOf(sel), s.now);
    } else if target.Confirm? {
      EnrichmentLaws.ConfirmCompletes(next, Enrichment.Supply(s.now, s.orderID, s.paymentTxnID));
    }
  }

  /** What the next request's context is: the callback's, but for the action, a new message id, the time, and a
      time to live where none was given. */
  ghost predicate ContextFollows(before: Fields, after: Fields, target: Action, s: Supply) {
    && (forall k | k !in {"action", "message_id", "timestamp", "ttl"} :: SameAt(before, after, k))
    && StrAt(after, "message_id") == s.messageID && StrAt(after, "timestamp") == s.now
    && (target.Init? ==> StrAt(after, "action") == "init") && (target.Confirm? ==> StrAt(after, "action") == "confirm")
    && (if "ttl" in before then SameAt(before, after, "ttl") else StrAt(after, "ttl") == "PT30S")
  }

  lemma NextContextFollows(ctx: Fields, target: Action, s: Supply)
    ensures ContextFollows(ctx, NextContext(ctx, target, s), target, s)
  {
    assert "action" != "message_id" && "message_id" != "timestamp" && "timestamp" != "ttl";
  }

  /** The edits of the next request: those of the stage's enrichment to the order, and none for another stage. */
  function OrderEdit(full: Fields, target: Action): Edit {
    if target.Init? then EnrichmentLaws.InitEdit(Enrichment.DomainOf(full))
    else if target.Confirm? then EnrichmentLaws.ConfirmEdit()
    else Kept
  }

  /** The next request is the callback itself: its context followed on, its order enriched by the edits of the stage,
      and every other value as it was. */
  lemma PayloadFollows(full: Fields, target: Action, sel: Option<Body>, s: Supply)
    requires target.Init? || target.Confirm?
    ensures var p := Payload(full, target, sel, s);
            && HasObj(p, "context") && ContextFollows(ObjAt(full, "context"), p["context"].fields, target, s)
            && Follows(EnrichmentLaws.RequestEdit(OrderEdit(full, target)), Obj(full["context" := p["context"]]), Obj(p))
  {
    var ctx := NextContext(ObjAt(full, "context"), target, s);
    var next := full["context" := Obj(ctx)];
    NextContextFollows(ObjAt(full, "context"), target, s);
    PayloadContext(full, target, sel, s);
    DomainKept(full, target, s);
    if target.Init? {
      EnrichmentLaws.ContextIsNotMessage();
      EnrichmentLaws.InitKeeps(next, Enrichment.SelectedOf(sel), s.now);
    } else {
      EnrichmentLaws.ContextIsNotMessage();
      EnrichmentLaws.ConfirmKeeps(next, Enrichment.Supply(s.now, s.orderID, s.paymentTxnID));
    }
  }

  lemma DomainKept(full: Fields, target: Action, s: Supply)
    ensures var next := full["context" := Obj(NextContext(ObjAt(full, "context"), target, s))];
            Enrichment.DomainOf(next) == Enrichment.DomainOf(full) && Enrichment.OrderOf(next) == Enrichment.OrderOf(full)
  {
    EnrichmentLaws.ContextIsNotMessage();
    assert "domain" != "action";
  }

  /** The missing gps and area code of an init's fulfillments are those of the stored select request it is given. */
  lemma InitPayloadValues(full: Fields, sel: Option<Body>, s: Supply, i: nat)
    requires EnrichmentValues.HasElement(Enrichment.OrderOf(full), "fulfillments", i)
    ensures var order, r := Enrichment.OrderOf(full), Enrichment.OrderOf(Payload(full, Init, sel, s));
            && EnrichmentValues.HasElement(r, "fulfillments", i)
            && var loc := ObjAt(ObjAt(order["fulfillments"].elems[i].fields, "end"), "location");
               var loc' := ObjAt(ObjAt(r["fulfillments"].elems[i].fields, "end"), "location");
               && (!HasStr(loc, "gps") ==> StrAt(loc', "gps") == OrElse(Enrichment.SelectedOf(sel).gps, "12.9716,77.5946"))
               && (!HasStr(ObjAt(loc, "address"), "area_code") ==>
                     StrAt(ObjAt(loc', "address"), "area_code") == OrElse(Enrichment.SelectedOf(sel).areaCode, "560001"))
  {
    var next := full["context" := Obj(NextContext(ObjAt(full, "context"), Init, s))];
    DomainKept(full, Init, s);
    EnrichmentValues.InitFulfillmentValues(next, Enrichment.SelectedOf(sel), s.now, i);
  }

  /** A confirm's missing times are those of its supply, as are its ids where neither order nor context gives one. */
  lemma ConfirmPayloadValues(full: Fields, sel: Option<Body>, s: Supply)
    ensures var order, r := Enrichment.OrderOf(full), Enrichment.OrderOf(Payload(full, Confirm, sel, s));
            && (!HasStr(order, "created_at") ==> StrAt(r, "created_at") == s.now)
            && (!HasStr(order, "updated_at") ==> StrAt(r, "updated_at") == s.now)
            && StrAt(r, "id") == OrElse(StrAt(order, "id"), OrElse(StrAt(ObjAt(full, "context"), "transaction_id"), s.orderID))
            && (!HasStr(ObjAt(ObjAt(order, "payment"), "params"), "transaction_id") ==>
                  StrAt(ObjAt(ObjAt(r, "payment"), "params"), "transaction_id") == s.paymentTxnID)
  {
    var next := full["context" := Obj(NextContext(ObjAt(full, "context"), Confirm, s))];
    var ids := Enrichment.Supply(s.now, s.orderID, s.paymentTxnID);
    DomainKept(full, Confirm, s);
    NextContextKeepsID(ObjAt(full, "context"), Confirm, s);
    EnrichmentValues.ConfirmTimes(next, ids);
    EnrichmentValues.ConfirmPaymentValues(next, ids);
    EnrichmentLaws.ConfirmKeeps(next, ids);
  }

  /** The string at the end of a path of keys, or the empty one. */
  function TextAt(j: Json, path: seq<string>): string
    decreases |path|
  {
    if path == [] then (if j.Str? then j.s else "")
    else if j.Obj? && path[0] in j.fields then TextAt(j.fields[path[0]], path[1..]) else ""
  }

  /** A body is eligible exactly when it is an object with a context object and acknowledges, or says nothing of it. */
  lemma EligibleExactly(b: Body)
    ensures Eligible(b) <==> b.Tree? && b.json.Obj? && HasObj(b.json.fields, "context")
                             && TextAt(b.json, ["message", "ack", "status"]) in {"", "ACK"}
  {
    if b.Tree? && b.json.Obj? {
      var path := ["message", "ack", "status"];
      assert path[1..] == ["ack", "status"] && path[1..][1..] == ["status"] && path[1..][1..][1..] == [];
      if HasObj(b.json.fields, "message") {
        AckText(b.json.fields["message"].fields);
      }
    }
  }

  lemma AckText(msg: Fields)
    ensures TextAt(Obj(msg), ["ack", "status"]) == StrAt(ObjAt(msg, "ack"), "status")
  {
    var path := ["ack", "status"];
    assert path[1..] == ["status"] && path[1..][1..] == [];
  }

  /** Every stored body carries the id it is stored under. */
  predicate Keyed(show: Json -> string, bodies: map<string, Body>) {
    forall id | id in bodies :: ExtractTxnID(show, bodies[id]) == id
  }

  /** The ids of a batch are exactly the ids that advance, in order. */
  lemma {:induction false} BatchIsFilter(show: Json -> string, src: Source, target: Action, ids: seq<string>)
    requires Keyed(show, src.bodies)
    ensures |Batch(src, target, ids)| == |Advancing(src.bodies, ids)| <= |ids|
    ensures forall i | 0 <= i < |Batch(src, target, ids)| :: IdOf(show, Batch(src, target, ids)[i]) == Advancing(src.bodies, ids)[i]
  {
    if ids != [] {
      var n := |ids| - 1;
      BatchIsFilter(show, src, target, ids[..n]);
      if Advances(src.bodies, ids[n]) {
        PayloadMeaning(show, src.bodies[ids[n]].json.fields, target, src.SelectOf(ids[n]), src.supply(n));
      }
    }
  }

  lemma {:induction false} AdvancingMeaning(bodies: map<string, Body>, ids: seq<string>, id: string)
    ensures id in Advancing(bodies, ids) <==> id in ids && Advances(bodies, id)
  {
    if ids != [] {
      var n := |ids| - 1;
      AdvancingMeaning(bodies, ids[..n], id);
      assert ids == ids[..n] + [ids[n]];
    }
  }

  /** Every payload of an init or confirm batch is complete. */
  lemma {:induction false} BatchComplete(src: Source, target: Action, ids: seq<string>)
    ensures forall p | p in Batch(src, target, ids) :: PayloadDone(target, p)
  {
    if ids != [] {
      var n := |ids| - 1;
      BatchComplete(src, target, ids[..n]);
      if Advances(src.bodies, ids[n]) {
        PayloadCompletes(src.bodies[ids[n]].json.fields, target, src.SelectOf(ids[n]), src.supply(n));
      }
    }
  }

  /** The positions whose ids advance. */
  function Positions(bodies: map<string, Body>, ids: seq<string>): seq<nat> {
    if ids == [] then []
    else
      var n := |ids| - 1;
      Positions(bodies, ids[..n]) + (if Advances(bodies, ids[n]) then [n] else [])
  }

  /** Each payload of a batch is the one made for its id and position, and the positions go up. */
  lemma BatchOrigins(src: Source, target: Action, ids: seq<string>)
    ensures |Batch(src, target, ids)| == |Positions(src.bodies, ids)|
    ensures forall i, j | 0 <= i < j < |Positions(src.bodies, ids)| :: Positions(src.bodies, ids)[i] < Positions(src.bodies, ids)[j]
    ensures forall j | 0 <= j < |Positions(src.bodies, ids)| ::
              MadeAt(src, target, ids, Positions(src.bodies, ids)[j], Batch(src, target, ids)[j])
  {
    PositionsGoUp(src, target, ids);
    forall j | 0 <= j < |Positions(src.bodies, ids)|
      ensures MadeAt(src, target, ids, Positions(src.bodies, ids)[j], Batch(src, target, ids)[j])
    {
      BatchMade(src, target, ids, j);
    }
  }

  lemma {:induction false} PositionsGoUp(src: Source, target: Action, ids: seq<string>)
    ensures |Batch(src, target, ids)| == |Positions(src.bodies, ids)|
    ensures forall j | 0 <= j < |Positions(src.bodies, ids)| :: Positions(src.bodies, ids)[j] < |ids|
    ensures forall i, j | 0 <= i < j < |Positions(src.bodies, ids)| :: Positions(src.bodies, ids)[i] < Positions(src.bodies, ids)[j]
  {
    if ids != [] {
      PositionsGoUp(src, target, ids[..|ids| - 1]);
    }
  }

  lemma {:induction false} BatchMade(src: Source, target: Action, ids: seq<string>, j: nat)
    requires |Batch(src, target, ids)| == |Positions(src.bodies, ids)| && j < |Positions(src.bodies, ids)|
    ensures MadeAt(src, target, ids, Positions(src.bodies, ids)[j], Batch(src, target, ids)[j])
  {
    var pre := ids[..|ids| - 1];
    PositionsGoUp(src, target, pre);
    if j < |Positions(src.bodies, pre)| {
      BatchMade(src, target, pre, j);
      assert MadeAt(src, target, pre, Positions(src.bodies, pre)[j], Batch(src, target, pre)[j]);
    }
  }

  /** The payload made for the id at a position. */
  predicate MadeAt(src: Source, target: Action, ids: seq<string>, i: nat, p: Fields) {
    i < |ids| && Advances(src.bodies, ids[i]) && p == PayloadFor(src, target, ids[i], i)
  }

  /** The payload for an id is made of its own callback, its own select request, and the supply of its position. */
  lemma PayloadForMeaning(src: Source, target: Action, id: string, i: nat)
    requires Advances(src.bodies, id)
    ensures PayloadFor(src, target, id, i)
         == Payload(src.bodies[id].json.fields, target, if id in src.selects then Some(src.selects[id]) else None, src.supply(i))
  {
  }

  /** No two requests of a batch carry the same message id, as long as the supply does not repeat one. */
  lemma MessageIDsDiffer(src: Source, target: Action, ids: seq<string>, i: nat, j: nat)
    requires forall h: nat, k: nat | h < k :: src.supply(h).messageID != src.supply(k).messageID
    requires i < j < |Batch(src, target, ids)|
    ensures var batch := Batch(src, target, ids);
            StrAt(ObjAt(batch[i], "context"), "message_id") != StrAt(ObjAt(batch[j], "context"), "message_id")
  {
    BatchOrigins(src, target, ids);
    var batch, at := Batch(src, target, ids), Positions(src.bodies, ids);
    assert MadeAt(src, target, ids, at[i], batch[i]) && MadeAt(src, target, ids, at[j], batch[j]);
    PayloadMessageID(src, target, ids[at[i]], at[i]);
    PayloadMessageID(src, target, ids[at[j]], at[j]);
  }

  lemma PayloadMessageID(src: Source, target: Action, id: string, i: nat)
    requires Advances(src.bodies, id)
    ensures StrAt(ObjAt(PayloadFor(src, target, id, i), "context"), "message_id") == src.supply(i).messageID
  {
    var full := src.bodies[id].json.fields;
    PayloadContext(full, target, src.SelectOf(id), src.supply(i));
    NextContextFollows(ObjAt(full, "context"), target, src.supply(i));
  }

  // ---------------------------------------------------------------- preparing a payload for sending

  /** What the driver is configured to stamp on outgoing contexts; an empty value stamps nothing. */
  datatype Config = Config(bapURI: string, bapID: string, sessionVersion: string, defaultVersion: string,
                           injection: ErrorInjection.Injection)

  function StampIf(m: Fields, k: string, v: string): Fields {
    if v != "" then m[k := Str(v)] else m
  }

  function StampContext(c: Config, ctx: Fields): Fields {
    StampIf(StampIf(StampIf(ctx, "bap_uri", c.bapURI), "bap_id", c.bapID), "core_version", OrElse(c.sessionVersion, c.defaultVersion))
  }

  /** The list under a key with the id of its first object replaced; nothing when there is no such object. */
  function WrongFirst(order: Fields, k: string, wrong: string): Option<Fields> {
    if HasArr(order, k) && order[k].elems != [] && order[k].elems[0].Obj?
    then Some(order[k := Arr(order[k].elems[0 := Obj(order[k].elems[0].fields["id" := Str(wrong)])])])
    else None
  }

  function CorruptOrder(a: Action, tag: string, order: Fields): Option<Fields> {
    match a
    case Select =>
      var o := WrongFirst(order, "items", "wrong-item-id");
      if o.None? || !HasObj(order, "provider") then None
      else Some(o.value["provider" := Obj(order["provider"].fields["id" := Str("wrong-provider-id")])])
    case Init =>
      var o := WrongFirst(order, "items", "wrong-item-id");
      if o.None? then None else WrongFirst(o.value, "fulfillments", "wrong-fulfillment-id")
    case Confirm =>
      var o := WrongFirst(order, "fulfillments", "wrong-fulfillment-id");
      if o.None? then None else Some(o.value["state" := Str(tag)])
    case _ => Some(order)
  }

  function CorruptForStage(a: Action, tag: string, env: Fields): Option<Fields> {
    if !Enrichment.HasOrder(env) then None
    else
      var o := CorruptOrder(a, tag, Enrichment.OrderOf(env));
      if o.None? then None else Some(Enrichment.WithOrder(env, o.value))
  }

  predicate FirstIsObject(order: Fields, k: string) {
    HasArr(order, k) && order[k].elems != [] && order[k].elems[0].Obj?
  }

  /** Whether an order has what the corruption of a stage damages. */
  predicate Corruptible(a: Action, order: Fields) {
    match a
    case Select => FirstIsObject(order, "items") && HasObj(order, "provider")
    case Init => FirstIsObject(order, "items") && FirstIsObject(order, "fulfillments")
    case Confirm => FirstIsObject(order, "fulfillments")
    case _ => true
  }

  /** The keys of an order the corruption of a stage damages. */
  function Damaged(a: Action): set<string> {
    match a
    case Select => {"items", "provider"}
    case Init => {"items", "fulfillments"}
    case Confirm => {"fulfillments", "state"}
    case _ => {}
  }

  /** `wrong` stands as the id of the first element under a key, and the rest of the list is as it was. */
  ghost predicate FirstIsWrong(order: Fields, after: Fields, k: string, wrong: string) {
    && FirstIsObject(order, k) && FirstIsObject(after, k)
    && after[k].elems[1..] == order[k].elems[1..]
    && StrAt(after[k].elems[0].fields, "id") == wrong
    && forall j | j != "id" :: SameAt(order[k].elems[0].fields, after[k].elems[0].fields, j)
  }

  lemma WrongFirstMeaning(order: Fields, k: string, wrong: string)
    ensures WrongFirst(order, k, wrong).Some? <==> FirstIsObject(order, k)
    ensures FirstIsObject(order, k) ==>
              var r := WrongFirst(order, k, wrong).value;
              FirstIsWrong(order, r, k, wrong) && forall j | j != k :: SameAt(order, r, j)
  {
  }

  /** What the corruption of a stage makes of an order: the damaged ids and state, and nothing else. */
  ghost predicate Spoiled(a: Action, tag: string, order: Fields, r: Fields) {
    && (forall k | k !in Damaged(a) :: SameAt(order, r, k))
    && (a.Select? ==> FirstIsWrong(order, r, "items", "wrong-item-id") && StrAt(ObjAt(r, "provider"), "id") == "wrong-provider-id"
                      && forall k | k != "id" :: SameAt(ObjAt(order, "provider"), ObjAt(r, "provider"), k))
    && (a.Init? ==> FirstIsWrong(order, r, "items", "wrong-item-id") && FirstIsWrong(order, r, "fulfillments", "wrong-fulfillment-id"))
    && (a.Confirm? ==> FirstIsWrong(order, r, "fulfillments", "wrong-fulfillment-id") && StrAt(r, "state") == tag)
  }

  /** A payload is corrupted exactly when its order has what the stage damages, and then only that is wrong. */
  lemma CorruptionMeaning(a: Action, tag: string, order: Fields)
    ensures CorruptOrder(a, tag, order).Some? <==> Corruptible(a, order)
    ensures Corruptible(a, order) ==> Spoiled(a, tag, order, CorruptOrder(a, tag, order).value)
  {
    assert "items" != "provider" && "items" != "fulfillments" && "fulfillments" != "state";
    match a
    case Select => WrongFirstMeaning(order, "items", "wrong-item-id");
    case Init =>
      WrongFirstMeaning(order, "items", "wrong-item-id");
      if FirstIsObject(order, "items") {
        WrongFirstMeaning(WrongFirst(order, "items", "wrong-item-id").value, "fulfillments", "wrong-fulfillment-id");
      }
    case Confirm => WrongFirstMeaning(order, "fulfillments", "wrong-fulfillment-id");
    case _ =>
  }

  datatype Prepared = Refused(txnID: string) | Ready(toSend: Body, txnID: string)

  method StampOutgoing(c: Config, ctx: Fields) returns (r: Fields)
    ensures r == StampContext(c, ctx)
  {
    r := ctx;
    if c.bapURI != "" {
      r := r["bap_uri" := Str(c.bapURI)];
    }
    if c.bapID != "" {
      r := r["bap_id" := Str(c.bapID)];
    }
    if c.sessionVersion != "" {
      r := r["core_version" := Str(c.sessionVersion)];
    } else if c.defaultVersion != "" {
      r := r["core_version" := Str(c.defaultVersion)];
    }
  }

  /** `tag` is the state a corrupted confirm is given, which names its index. */
  method PreparePayload(show: Json -> string, c: Config, a: Action, idx: nat, tag: string, raw: Body) returns (p: Prepared)
    ensures p == Prepare(show, c, a, idx, tag, raw)
  {
    if raw.Malformed? || !(raw.json.Obj? || raw.json.Null?) {
      return Refused("");
    }
    if raw.json.Null? || !HasObj(raw.json.fields, "context") {
      return Ready(raw, "");
    }
    var env := raw.json.fields;
    var ctx := env["context"].fields;
    var txnID := "";
    if "transaction_id" in ctx && ctx["transaction_id"] != Null {
      txnID := show(ctx["transaction_id"]);
    }
    ctx := StampOutgoing(c, ctx);
    env := env["context" := Obj(ctx)];
    if ErrorInjection.ShouldCorrupt(c.injection, idx) {
      var bad := CorruptForStage(a, tag, env);
      if bad.None? {
        return Refused(txnID);
      }
      env := bad.value;
    }
    p := Ready(Tree(Obj(env)), txnID);
  }

  function Prepare(show: Json -> string, c: Config, a: Action, idx: nat, tag: string, raw: Body): Prepared {
    if raw.Malformed? || !(raw.json.Obj? || raw.json.Null?) then Refused("")
    else if raw.json.Null? || !HasObj(raw.json.fields, "context") then Ready(raw, "")
    else
      var env := raw.json.fields;
      var stamped := env["context" := Obj(StampContext(c, env["context"].fields))];
      var id := IdOf(show, env);
      if !ErrorInjection.ShouldCorrupt(c.injection, idx) then Ready(Tree(Obj(stamped)), id)
      else
        var bad := CorruptForStage(a, tag, stamped);
        if bad.None? then Refused(id) else Ready(Tree(Obj(bad.value)), id)
  }

  lemma StampKeepsID(c: Config, ctx: Fields)
    ensures "transaction_id" in StampContext(c, ctx) <==> "transaction_id" in ctx
    ensures "transaction_id" in ctx ==> StampContext(c, ctx)["transaction_id"] == ctx["transaction_id"]
  {
  }

  /** Preparing a payload, corrupted or not, reports and keeps the id it carries. */
  lemma PrepareKeepsID(show: Json -> string, c: Config, a: Action, idx: nat, tag: string, raw: Body)
    ensures var p := Prepare(show, c, a, idx, tag, raw);
            p.txnID == ExtractTxnID(show, raw) && (p.Ready? ==> ExtractTxnID(show, p.toSend) == ExtractTxnID(show, raw))
  {
    if Decodes(raw) && HasObj(raw.json.fields, "context") {
      var env := raw.json.fields;
      EnrichmentLaws.ContextIsNotMessage();
      StampKeepsID(c, env["context"].fields);
    }
  }

  /** What stamping makes of a context: the driver's own values where it has any, and all other keys as they were. */
  ghost predicate StampedAs(c: Config, ctx: Fields, r: Fields) {
    && (forall k | k !in {"bap_uri", "bap_id", "core_version"} :: SameAt(ctx, r, k))
    && (if c.bapURI == "" then SameAt(ctx, r, "bap_uri") else HasStr(r, "bap_uri") && r["bap_uri"].s == c.bapURI)
    && (if c.bapID == "" then SameAt(ctx, r, "bap_id") else HasStr(r, "bap_id") && r["bap_id"].s == c.bapID)
    && (if c.sessionVersion != "" then HasStr(r, "core_version") && r["core_version"].s == c.sessionVersion
        else if c.defaultVersion != "" then HasStr(r, "core_version") && r["core_version"].s == c.defaultVersion
        else SameAt(ctx, r, "core_version"))
  }

  lemma StampMeaning(c: Config, ctx: Fields)
    ensures StampedAs(c, ctx, StampContext(c, ctx))
  {
    StampNamesDiffer();
  }

  lemma StampNamesDiffer()
    ensures "bap_uri" != "bap_id" && "bap_uri" != "core_version" && "bap_id" != "core_version"
  {
  }

  /** What is sent for a decoded envelope with a context: it is refused exactly when it should be corrupted and cannot
      be; otherwise its context is stamped, its order is spoiled exactly when it should be, and all else stays. */
  lemma PreparedMeaning(show: Json -> string, c: Config, a: Action, idx: nat, tag: string, env: Fields)
    requires HasObj(env, "context")
    ensures var p := Prepare(show, c, a, idx, tag, Tree(Obj(env)));
            var corrupt := ErrorInjection.ShouldCorrupt(c.injection, idx);
            && (p.Refused? <==> corrupt && !(Enrichment.HasOrder(env) && Corruptible(a, Enrichment.OrderOf(env))))
            && (p.Ready? ==>
                  && Decodes(p.toSend) && HasObj(p.toSend.json.fields, "context")
                  && var sent := p.toSend.json.fields;
                     && StampedAs(c, env["context"].fields, sent["context"].fields)
                     && (forall k | k != "context" && k != "message" :: SameAt(env, sent, k))
                     && (!corrupt ==> SameAt(env, sent, "message"))
                     && (corrupt ==> Spoiled(a, tag, Enrichment.OrderOf(env), Enrichment.OrderOf(sent))
                                     && forall k | k != "order" :: SameAt(ObjAt(env, "message"), ObjAt(sent, "message"), k)))
  {
    EnrichmentLaws.ContextIsNotMessage();
    StampMeaning(c, env["context"].fields);
    var stamped := env["context" := Obj(StampContext(c, env["context"].fields))];
    assert Enrichment.OrderOf(stamped) == Enrichment.OrderOf(env);
    CorruptionMeaning(a, tag, Enrichment.OrderOf(env));
    CorruptedParts(a, tag, stamped);
  }

  lemma CorruptedParts(a: Action, tag: string, env: Fields)
    ensures var bad := CorruptForStage(a, tag, env);
            && (bad.Some? <==> Enrichment.HasOrder(env) && CorruptOrder(a, tag, Enrichment.OrderOf(env)).Some?)
            && (bad.Some? ==>
                  && Enrichment.OrderOf(bad.value) == CorruptOrder(a, tag, Enrichment.OrderOf(env)).value
                  && (forall k | k != "message" :: SameAt(env, bad.value, k))
                  && (forall k | k != "order" :: SameAt(ObjAt(env, "message"), ObjAt(bad.value, "message"), k)))
  {
  }

  // ---------------------------------------------------------------- a whole run

  datatype Entry = Entry(runID: string, action: Action, txnID: string)

  /** The run log, the routes of transactions to runs, and, as history, which run's select stage linked which
      transaction. */
  datatype State = State(log: map<Entry, Body>, links: map<string, string>, linked: set<(string, string)>)

  const START := State(map[], map[], {})

  /** The pseudo-run a discovery links its search transaction to; no run has this id. */
  const DISCOVERY := "discovery"

  /** What happens: requests are prepared and recorded, discoveries link their search, callbacks arrive and are
      recorded, routes and runs are forgotten. Each recording may fail. */
  datatype Event =
    | Send(runID: string, action: Action, idx: nat, tag: string, raw: Body, recorded: bool)
    | Callback(action: Action, body: Body, recorded: bool)
    | Discover(txnID: string)
    | LinkExpires(txnID: string)
    | Cleanup(runID: string)

  function Put(s: State, runID: string, a: Action, id: string, b: Body, ok: bool): State {
    if ok && runID != "" then s.(log := s.log[Entry(runID, a, id) := b]) else s
  }

  function Step(show: Json -> string, c: Config, s: State, e: Event): State {
    match e
    case Send(run, a, idx, tag, raw, ok) =>
      var p := Prepare(show, c, a, idx, tag, raw);
      if p.Refused? || p.txnID == "" || IsCallback(a) then s
      else
        var s' := if a.Select? then s.(links := s.links[p.txnID := run], linked := s.linked + {(run, p.txnID)}) else s;
        Put(s', run, a, p.txnID, p.toSend, ok)
    case Callback(a, body, ok) =>
      var id := ExtractTxnID(show, body);
      if id == "" || id !in s.links || !IsCallback(a) then s else Put(s, s.links[id], a, id, body, ok)
    case Discover(id) => s.(links := s.links[id := DISCOVERY])
    case LinkExpires(id) => s.(links := s.links - {id})
    case Cleanup(run) => s.(log := map k | k in s.log && k.runID != run :: s.log[k])
  }

  function Run(show: Json -> string, c: Config, es: seq<Event>): State {
    if es == [] then START else Step(show, c, Run(show, c, es[..|es| - 1]), es[|es| - 1])
  }

  /** The bodies stored for one action of one run. */
  function BodiesOf(s: State, runID: string, a: Action): map<string, Body> {
    map k | k in s.log && k.runID == runID && k.action == a :: k.txnID := s.log[k]
  }

  predicate Sound(show: Json -> string, s: State) {
    && (forall k | k in s.log :: k.txnID != "" && ExtractTxnID(show, s.log[k]) == k.txnID)
    && (forall t | t in s.links && s.links[t] != DISCOVERY :: (s.links[t], t) in s.linked)
    && (forall k | k in s.log && IsCallback(k.action) && k.runID != DISCOVERY :: (k.runID, k.txnID) in s.linked)
  }

  lemma StepSound(show: Json -> string, c: Config, s: State, e: Event)
    requires Sound(show, s)
    ensures Sound(show, Step(show, c, s, e))
  {
    match e
    case Send(_, a, idx, tag, raw, _) => PrepareKeepsID(show, c, a, idx, tag, raw);
    case Callback(_, _, _) =>
    case Discover(_) =>
    case LinkExpires(_) =>
    case Cleanup(_) =>
  }

  /** Over every run: a body is stored under the id it carries, and a callback is stored only in a run whose
      select stage sent that transaction, or in the pseudo-run of discoveries. */
  lemma {:induction false} RunSound(show: Json -> string, c: Config, es: seq<Event>)
    ensures Sound(show, Run(show, c, es))
  {
    if es != [] {
      RunSound(show, c, es[..|es| - 1]);
      StepSound(show, c, Run(show, c, es[..|es| - 1]), es[|es| - 1]);
    }
  }

  /** The run's select stage sent an id. */
  ghost predicate SentBySelect(show: Json -> string, es: seq<Event>, runID: string, id: string) {
    exists e :: e in es && e.Send? && e.action.Select? && e.runID == runID && ExtractTxnID(show, e.raw) == id
  }

  /** Whoever is linked was sent by a select of that run. */
  lemma {:induction false} LinkedWereSent(show: Json -> string, c: Config, es: seq<Event>, runID: string, id: string)
    requires (runID, id) in Run(show, c, es).linked
    ensures SentBySelect(show, es, runID, id)
  {
    var n := |es| - 1;
    var before, e := Run(show, c, es[..n]), es[n];
    if (runID, id) in before.linked {
      LinkedWereSent(show, c, es[..n], runID, id);
    } else {
      PrepareKeepsID(show, c, e.action, e.idx, e.tag, e.raw);
      assert e in es;
    }
  }

  /** The stage whose callbacks a batch is built from. */
  function SourceOf(target: Action): Action {
    if target.Init? then OnSelect else OnInit
  }

  lemma BodiesKeyed(show: Json -> string, s: State, runID: string, a: Action)
    requires Sound(show, s)
    ensures Keyed(show, BodiesOf(s, runID, a))
    ensures forall id | id in BodiesOf(s, runID, a) ::
              Entry(runID, a, id) in s.log && BodiesOf(s, runID, a)[id] == s.log[Entry(runID, a, id)]
  {
  }

  /** A payload of a batch carries one of its ids, and one that advances. */
  lemma PayloadOrigin(show: Json -> string, src: Source, target: Action, ids: seq<string>, p: Fields)
    requires Keyed(show, src.bodies) && p in Batch(src, target, ids)
    ensures IdOf(show, p) in ids && Advances(src.bodies, IdOf(show, p))
  {
    var batch := Batch(src, target, ids);
    var i :| 0 <= i < |batch| && batch[i] == p;
    BatchIsFilter(show, src, target, ids);
    AdvancingMeaning(src.bodies, ids, Advancing(src.bodies, ids)[i]);
  }

  /** Causality of a whole run. At any moment of any run, every payload of an init or confirm batch built for the
      ids of a select batch carries an id some payload of that select batch carries; the run's own select stage
      sent it; the run holds for it a callback of the preceding stage, carrying that id, that does not report a
      refusal; and sending the payload, corrupted or not, reports that id. */
  lemma Causality(show: Json -> string, c: Config, es: seq<Event>, runID: string, target: Action, src: Source,
                  selects: seq<Body>, p: Fields, idx: nat, tag: string)
    requires (target.Init? || target.Confirm?) && runID != DISCOVERY
    requires src.bodies == BodiesOf(Run(show, c, es), runID, SourceOf(target))
    requires p in Batch(src, target, IdsOf(show, selects))
    ensures var id := IdOf(show, p);
            var log := Run(show, c, es).log;
            var k := Entry(runID, SourceOf(target), id);
            && id != "" && Carried(show, selects, id) && SentBySelect(show, es, runID, id)
            && k in log && Eligible(log[k]) && ExtractTxnID(show, log[k]) == id
            && Prepare(show, c, target, idx, tag, Tree(Obj(p))).txnID == id
  {
    var s, id := Run(show, c, es), IdOf(show, p);
    RunSound(show, c, es);
    BodiesKeyed(show, s, runID, SourceOf(target));
    PayloadOrigin(show, src, target, IdsOf(show, selects), p);
    IdsMeaning(show, selects, id);
    assert Entry(runID, SourceOf(target), id) in s.log;
    LinkedWereSent(show, c, es, runID, id);
    PrepareKeepsID(show, c, target, idx, tag, Tree(Obj(p)));
  }

  /** And no transaction that may advance is left behind: the batch has one payload per advancing id, in order. */
  lemma NothingLeftBehind(show: Json -> string, c: Config, es: seq<Event>, runID: string, target: Action, src: Source, ids: seq<string>)
    requires target.Init? || target.Confirm?
    requires src.bodies == BodiesOf(Run(show, c, es), runID, SourceOf(target))
    ensures var batch := Batch(src, target, ids);
            && |batch| == |Advancing(src.bodies, ids)| <= |ids|
            && (forall i | 0 <= i < |batch| :: IdOf(show, batch[i]) == Advancing(src.bodies, ids)[i])
    ensures forall id | id in ids && Entry(runID, SourceOf(target), id) in Run(show, c, es).log
                          && Eligible(Run(show, c, es).log[Entry(runID, SourceOf(target), id)]) :: id in Advancing(src.bodies, ids)
  {
    var s, a := Run(show, c, es), SourceOf(target);
    RunSound(show, c, es);
    BodiesKeyed(show, s, runID, a);
    BatchIsFilter(show, src, target, ids);
    forall id | id in ids && Entry(runID, a, id) in s.log && Eligible(s.log[Entry(runID, a, id)])
      ensures id in Advancing(src.bodies, ids)
    {
      AdvancingMeaning(src.bodies, ids, id);
    }
  }

  // ---------------------------------------------------------------- an answered transaction goes on

  /** Events after which a transaction may be routed elsewhere, or nowhere. */
  predicate Reroutes(show: Json -> string, e: Event, id: string) {
    match e
    case Send(_, a, _, _, raw, _) => a.Select? && ExtractTxnID(show, raw) == id
    case Discover(t) => t == id
    case LinkExpires(t) => t == id
    case _ => false
  }

  /** Events after which a run may hold something else for a transaction, or nothing. */
  predicate Overwrites(show: Json -> string, e: Event, runID: string, a: Action, id: string) {
    match e
    case Send(run, b, _, _, raw, _) => run == runID && b == a && ExtractTxnID(show, raw) == id
    case Callback(b, body, _) => b == a && ExtractTxnID(show, body) == id
    case Cleanup(run) => run == runID
    case _ => false
  }

  lemma {:induction false} LinkStays(show: Json -> string, c: Config, es: seq<Event>, more: seq<Event>, id: string, runID: string)
    requires id in Run(show, c, es).links && Run(show, c, es).links[id] == runID
    requires forall e | e in more :: !Reroutes(show, e, id)
    ensures id in Run(show, c, es + more).links && Run(show, c, es + more).links[id] == runID
  {
    if more == [] {
      assert es + more == es;
    } else {
      var n := |more| - 1;
      var all := es + more;
      assert all[..|all| - 1] == es + more[..n];
      LinkStays(show, c, es, more[..n], id, runID);
      LinkStep(show, c, Run(show, c, es + more[..n]), more[n], id);
    }
  }

  lemma LinkStep(show: Json -> string, c: Config, s: State, e: Event, id: string)
    requires id in s.links && !Reroutes(show, e, id)
    ensures id in Step(show, c, s, e).links && Step(show, c, s, e).links[id] == s.links[id]
  {
    if e.Send? {
      PrepareKeepsID(show, c, e.action, e.idx, e.tag, e.raw);
    }
  }

  lemma {:induction false} EntryStays(show: Json -> string, c: Config, es: seq<Event>, more: seq<Event>, k: Entry)
    requires k in Run(show, c, es).log
    requires forall e | e in more :: !Overwrites(show, e, k.runID, k.action, k.txnID)
    ensures k in Run(show, c, es + more).log && Run(show, c, es + more).log[k] == Run(show, c, es).log[k]
  {
    if more == [] {
      assert es + more == es;
    } else {
      var n := |more| - 1;
      var all := es + more;
      assert all[..|all| - 1] == es + more[..n];
      EntryStays(show, c, es, more[..n], k);
      EntryStep(show, c, Run(show, c, es + more[..n]), more[n], k);
    }
  }

  lemma EntryStep(show: Json -> string, c: Config, s: State, e: Event, k: Entry)
    requires k in s.log && !Overwrites(show, e, k.runID, k.action, k.txnID)
    ensures k in Step(show, c, s, e).log && Step(show, c, s, e).log[k] == s.log[k]
  {
    if e.Send? {
      PrepareKeepsID(show, c, e.action, e.idx, e.tag, e.raw);
    }
  }

  /** A select that could be prepared routes its transaction to its run, recorded or not, and is recorded as sent. */
  lemma SelectRoutes(show: Json -> string, c: Config, es: seq<Event>, e: Event)
    requires e.Send? && e.action.Select? && Prepare(show, c, Select, e.idx, e.tag, e.raw).Ready? && ExtractTxnID(show, e.raw) != ""
    ensures var s, id := Run(show, c, es + [e]), ExtractTxnID(show, e.raw);
            && id in s.links && s.links[id] == e.runID
            && (e.recorded && e.runID != "" ==>
                  Entry(e.runID, Select, id) in s.log
                  && s.log[Entry(e.runID, Select, id)] == Prepare(show, c, Select, e.idx, e.tag, e.raw).toSend)
  {
    PrepareKeepsID(show, c, Select, e.idx, e.tag, e.raw);
    assert (es + [e])[..|es|] == es;
  }

  /** A recorded callback is held by the run its transaction is routed to, in place of any earlier one. */
  lemma CallbackHeld(show: Json -> string, c: Config, es: seq<Event>, a: Action, body: Body)
    requires IsCallback(a) && ExtractTxnID(show, body) != "" && ExtractTxnID(show, body) in Run(show, c, es).links
    requires Run(show, c, es).links[ExtractTxnID(show, body)] != ""
    ensures var before, s, id := Run(show, c, es), Run(show, c, es + [Callback(a, body, true)]), ExtractTxnID(show, body);
            s.links == before.links && s.log == before.log[Entry(before.links[id], a, id) := body]
  {
    assert (es + [Callback(a, body, true)])[..|es|] == es;
  }

  /** What is not recorded changes nothing in the log: a failed recording, a body without an id, a callback on a
      transaction that is not routed, or anything of a run without a name. */
  lemma NotHeld(show: Json -> string, c: Config, s: State, e: Event)
    requires e.Send? || e.Callback?
    requires var id := ExtractTxnID(show, if e.Send? then e.raw else e.body);
             || !e.recorded || id == ""
             || (e.Send? && (e.runID == "" || Prepare(show, c, e.action, e.idx, e.tag, e.raw).Refused?))
             || (e.Callback? && (id !in s.links || s.links[id] == ""))
    ensures Step(show, c, s, e).log == s.log
  {
    if e.Send? {
      PrepareKeepsID(show, c, e.action, e.idx, e.tag, e.raw);
    }
  }

  /** A request of a later stage is recorded as it was sent, and routes nothing. */
  lemma RequestHeld(show: Json -> string, c: Config, s: State, e: Event)
    requires e.Send? && (e.action.Init? || e.action.Confirm?) && e.recorded && e.runID != ""
    requires Prepare(show, c, e.action, e.idx, e.tag, e.raw).Ready? && ExtractTxnID(show, e.raw) != ""
    ensures Step(show, c, s, e)
         == s.(log := s.log[Entry(e.runID, e.action, ExtractTxnID(show, e.raw)) := Prepare(show, c, e.action, e.idx, e.tag, e.raw).toSend])
  {
    PrepareKeepsID(show, c, e.action, e.idx, e.tag, e.raw);
  }

  /** A transaction that was selected, answered and not refused goes on: whatever else happens in between, as long as it
      is not routed elsewhere before the callback and the callback is neither replaced nor cleaned up after it, the
      batch of the next stage holds a request that carries its id. */
  lemma AnsweredGoesOn(show: Json -> string, c: Config, es: seq<Event>, sel: Event, mid: seq<Event>, body: Body, after: seq<Event>,
                       src: Source, ids: seq<string>)
    returns (i: nat)
    requires sel.Send? && sel.action.Select? && sel.runID != "" && Prepare(show, c, Select, sel.idx, sel.tag, sel.raw).Ready?
    requires Eligible(body) && ExtractTxnID(show, body) == ExtractTxnID(show, sel.raw) != "" && ExtractTxnID(show, body) in ids
    requires forall e | e in mid :: !Reroutes(show, e, ExtractTxnID(show, body))
    requires forall e | e in after :: !Overwrites(show, e, sel.runID, OnSelect, ExtractTxnID(show, body))
    requires src.bodies == BodiesOf(Run(show, c, es + [sel] + mid + [Callback(OnSelect, body, true)] + after), sel.runID, OnSelect)
    ensures i < |Batch(src, Init, ids)| && IdOf(show, Batch(src, Init, ids)[i]) == ExtractTxnID(show, body)
  {
    var id, k := ExtractTxnID(show, body), Entry(sel.runID, OnSelect, ExtractTxnID(show, body));
    SelectRoutes(show, c, es, sel);
    LinkStays(show, c, es + [sel], mid, id, sel.runID);
    CallbackHeld(show, c, es + [sel] + mid, OnSelect, body);
    EntryStays(show, c, es + [sel] + mid + [Callback(OnSelect, body, true)], after, k);
    var all := es + [sel] + mid + [Callback(OnSelect, body, true)] + after;
    NothingLeftBehind(show, c, all, sel.runID, Init, src, ids);
    assert id in Advancing(src.bodies, ids);
    i :| i < |Advancing(src.bodies, ids)| && Advancing(src.bodies, ids)[i] == id;
  }
}
