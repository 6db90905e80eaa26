/** Select requests from generated orders: round robin over the orders, then normalization. */
module SelectPayloads {
  import opened Arith
  import opened Counting
  import opened Json
  import Enrichment
  import EnrichmentLaws
  import opened SelectBatch
  import BatchBuild
  import opened Wrappers

  datatype Fault = EndMissing | LocationMissing | GpsMissing | AddressMissing | AreaCodeMissing

  // ---------------------------------------------------------------- normalization

  function At(m: Fields, k: string): Json {
    if k in m then m[k] else Null
  }

  const SERVICEABLE := Obj(map["descriptor" := Obj(map["code" := Str("Serviceable")])])

  function Typed(fm: Fields): Fields {
    if At(fm, "type").Null? then fm["type" := Str("Delivery")] else fm
  }

  /** The first pass over a fulfillment: a type and a state. */
  function FirstPass(f: Json): Json {
    if !f.Obj? then f
    else
      var fm := Typed(f.fields);
      Obj(if HasObj(fm, "state") then fm else fm["state" := SERVICEABLE])
  }

  /** The second pass: a state descriptor with a code. */
  function SecondPass(show: Json -> string, f: Json): Json {
    if !f.Obj? then f
    else
      var fm := Typed(f.fields);
      var state := ObjAt(fm, "state");
      var d := ObjAt(state, "descriptor");
      var d' := if At(d, "code").Null? || show(At(d, "code")) == "" then d["code" := Str("Serviceable")] else d;
      Obj(fm["state" := Obj(state["descriptor" := Obj(d')])])
  }

  /** What a fulfillment lacks, checked in the order of the code. A missing value prints like null. */
  function FaultOf(show: Json -> string, f: Json): Option<Fault> {
    if !f.Obj? then None
    else if !HasObj(f.fields, "end") then Some(EndMissing)
    else
      var end := f.fields["end"].fields;
      if !HasObj(end, "location") then Some(LocationMissing)
      else
        var loc := end["location"].fields;
        if show(At(loc, "gps")) == "" then Some(GpsMissing)
        else if !HasObj(loc, "address") then Some(AddressMissing)
        else if show(At(loc["address"].fields, "area_code")) == "" then Some(AreaCodeMissing)
        else None
  }

  /** The first fault in the list. */
  function FirstFault(show: Json -> string, fs: seq<Json>): Option<Fault> {
    if fs == [] then None
    else
      var pre := FirstFault(show, fs[..|fs| - 1]);
      if pre.Some? then pre else FaultOf(show, fs[|fs| - 1])
  }

  function FirstID(fs: seq<Json>): string {
    if fs == [] then "" else OrElse(FirstID(fs[..|fs| - 1]), IDAt(fs[|fs| - 1]))
  }

  function NormalItem(it: Json, firstID: string): Json {
    if !it.Obj? then it
    else
      var im := it.fields;
      var im' := if At(im, "fulfillment_id").Null? && firstID != "" then im["fulfillment_id" := Str(firstID)] else im;
      Obj(im'["tags" := ITEM_TAGS])
  }

  function NormalItems(items: seq<Json>, firstID: string): seq<Json> {
    seq(|items|, i requires 0 <= i < |items| => NormalItem(items[i], firstID))
  }

  function NormalFulfillments(show: Json -> string, fs: seq<Json>): seq<Json> {
    seq(|fs|, i requires 0 <= i < |fs| => SecondPass(show, FirstPass(fs[i])))
  }

  function ElemsAt(m: Fields, k: string): seq<Json> {
    if HasArr(m, k) then m[k].elems else []
  }

  function NormalOrder(show: Json -> string, order: Fields): Fields {
    var fs := ElemsAt(order, "fulfillments");
    var o := if HasArr(order, "items") then order["items" := Arr(NormalItems(order["items"].elems, FirstID(fs)))] else order;
    if HasArr(order, "fulfillments") then o["fulfillments" := Arr(NormalFulfillments(show, fs))] else o
  }

  function NormalContext(m: Fields): Fields {
    if HasObj(m, "context") && StrAt(m["context"].fields, "ttl") == "" then
      m["context" := Obj(m["context"].fields["ttl" := Str("PT30S")])]
    else m
  }

  function Normalize(show: Json -> string, payload: Fields): Result<Fields, Fault> {
    var m := NormalContext(payload);
    if !Enrichment.HasOrder(m) then Ok(m)
    else
      var order := Enrichment.OrderOf(m);
      var fault := FirstFault(show, ElemsAt(order, "fulfillments"));
      if fault.Some? then Err(fault.value) else Ok(Enrichment.WithOrder(m, NormalOrder(show, order)))
  }

  method FirstPasses(fs: seq<Json>) returns (out: seq<Json>, firstID: string)
    ensures |out| == |fs| && forall i | 0 <= i < |fs| :: out[i] == FirstPass(fs[i])
    ensures firstID == FirstID(fs)
  {
    out, firstID := fs, "";
    for i := 0 to |fs|
      invariant |out| == |fs|
      invariant forall j | 0 <= j < |fs| :: out[j] == if j < i then FirstPass(fs[j]) else fs[j]
      invariant firstID == FirstID(fs[..i])
    {
      assert fs[..i + 1][..i] == fs[..i];
      if out[i].Obj? {
        var fm := out[i].fields;
        if "type" !in fm || fm["type"] == Null {
          fm := fm["type" := Str("Delivery")];
        }
        if !HasObj(fm, "state") {
          fm := fm["state" := Obj(map["descriptor" := Obj(map["code" := Str("Serviceable")])])];
        }
        out := out[i := Obj(fm)];
        var id := StrAt(fs[i].fields, "id");
        if firstID == "" && id != "" {
          firstID := id;
        }
      }
    }
    assert fs[..|fs|] == fs;
  }

  method SecondPasses(show: Json -> string, fs: seq<Json>) returns (r: Result<seq<Json>, Fault>)
    ensures FirstFault(show, fs).Some? ==> r == Err(FirstFault(show, fs).value)
    ensures FirstFault(show, fs).None? ==>
              r.Ok? && |r.value| == |fs| && forall i | 0 <= i < |fs| :: r.value[i] == SecondPass(show, fs[i])
  {
    var out := fs;
    for i := 0 to |fs|
      invariant |out| == |fs| && FirstFault(show, fs[..i]).None?
      invariant forall j | 0 <= j < |fs| :: out[j] == if j < i then SecondPass(show, fs[j]) else fs[j]
    {
      assert fs[..i + 1][..i] == fs[..i];
      var fault := FaultOf(show, fs[i]);
      if fault.Some? {
        FaultStays(show, fs, i + 1);
        return Err(fault.value);
      }
      out := out[i := SecondPass(show, out[i])];
    }
    assert fs[..|fs|] == fs;
    r := Ok(out);
  }

  lemma {:induction false} FaultStays(show: Json -> string, fs: seq<Json>, n: nat)
    requires n <= |fs| && FirstFault(show, fs[..n]).Some?
    ensures FirstFault(show, fs) == FirstFault(show, fs[..n])
    decreases |fs| - n
  {
    if n == |fs| {
      assert fs[..n] == fs;
    } else {
      assert fs[..n + 1][..n] == fs[..n];
      FaultStays(show, fs, n + 1);
    }
  }

  method NormalizeSelectPayload(show: Json -> string, payload: Fields) returns (r: Result<Fields, Fault>)
    ensures r == Normalize(show, payload)
  {
    var m := NormalContext(payload);
    if !Enrichment.HasOrder(m) {
      return Ok(m);
    }
    var order := Enrichment.OrderOf(m);
    var fs := ElemsAt(order, "fulfillments");
    var passed, firstID := FirstPasses(fs);
    FirstPassKeepsFaults(show, fs, passed);
    if HasArr(order, "items") {
      var items := order["items"].elems;
      for i := 0 to |items|
        invariant |items| == |order["items"].elems|
        invariant forall j | 0 <= j < |items| ::
                    items[j] == if j < i then NormalItem(order["items"].elems[j], firstID) else order["items"].elems[j]
      {
        if items[i].Obj? {
          var im := items[i].fields;
          if ("fulfillment_id" !in im || im["fulfillment_id"] == Null) && firstID != "" {
            im := im["fulfillment_id" := Str(firstID)];
          }
          im := im["tags" := ITEM_TAGS];
          items := items[i := Obj(im)];
        }
      }
      assert items == NormalItems(order["items"].elems, firstID);
      order := order["items" := Arr(items)];
    }
    if HasArr(order, "fulfillments") {
      var second := SecondPasses(show, passed);
      if second.Err? {
        return Err(second.error);
      }
      assert second.value == NormalFulfillments(show, fs);
      order := order["fulfillments" := Arr(second.value)];
    }
    r := Ok(Enrichment.WithOrder(m, order));
  }

  lemma FirstPassFault(show: Json -> string, f: Json)
    ensures FaultOf(show, FirstPass(f)) == FaultOf(show, f)
  {
    assert "end" != "type" && "end" != "state";
  }

  lemma {:induction false} FirstPassKeepsFaults(show: Json -> string, fs: seq<Json>, passed: seq<Json>)
    requires |passed| == |fs| && forall i | 0 <= i < |fs| :: passed[i] == FirstPass(fs[i])
    ensures FirstFault(show, passed) == FirstFault(show, fs)
  {
    if fs != [] {
      var n := |fs| - 1;
      FirstPassKeepsFaults(show, fs[..n], passed[..n]);
      FirstPassFault(show, fs[n]);
    }
  }

  /** An order is refused exactly when some object among its fulfillments lacks something. */
  lemma {:induction false} RefusedExactly(show: Json -> string, fs: seq<Json>)
    ensures FirstFault(show, fs).None? <==> forall f | f in fs :: FaultOf(show, f).None?
  {
    if fs != [] {
      var n := |fs| - 1;
      RefusedExactly(show, fs[..n]);
      assert fs == fs[..n] + [fs[n]];
    }
  }

  /** How the code prints: only the empty string prints as empty, so that a missing value does not. */
  ghost predicate Prints(show: Json -> string) {
    forall j: Json :: show(j) == "" <==> j == Str("")
  }

  /** What a fulfillment with an end and a location holds there. */
  function LocationAtEnd(f: Json): Fields {
    if f.Obj? then ObjAt(ObjAt(f.fields, "end"), "location") else map[]
  }

  predicate Located(f: Json) {
    f.Obj? && HasObj(f.fields, "end") && HasObj(f.fields["end"].fields, "location")
  }

  /** Among fulfillments with an end and a location, one is refused for its gps exactly when that is the empty string. */
  lemma GpsNoticedExactly(show: Json -> string, f: Json)
    requires Prints(show) && Located(f)
    ensures FaultOf(show, f) == Some(GpsMissing) <==> At(LocationAtEnd(f), "gps") == Str("")
  {
    var loc := f.fields["end"].fields["location"].fields;
    assert show(At(loc, "gps")) == "" <==> At(loc, "gps") == Str("");
  }

  /** With an address besides, one is refused for its area code exactly when that is the empty string and gps is not. */
  lemma AreaCodeNoticedExactly(show: Json -> string, f: Json)
    requires Prints(show) && Located(f) && HasObj(LocationAtEnd(f), "address")
    ensures FaultOf(show, f) == Some(AreaCodeMissing) <==>
              At(LocationAtEnd(f), "gps") != Str("") && At(ObjAt(LocationAtEnd(f), "address"), "area_code") == Str("")
  {
    var loc := f.fields["end"].fields["location"].fields;
    assert show(At(loc, "gps")) == "" <==> At(loc, "gps") == Str("");
    var addr := loc["address"].fields;
    assert show(At(addr, "area_code")) == "" <==> At(addr, "area_code") == Str("");
  }

  /** What normalization notices of a fulfillment: a missing object on the way, or an empty string at its end. */
  predicate Noticed(f: Json) {
    f.Obj? &&
    (!Located(f) || At(LocationAtEnd(f), "gps") == Str("") || !HasObj(LocationAtEnd(f), "address")
     || At(ObjAt(LocationAtEnd(f), "address"), "area_code") == Str(""))
  }

  lemma NoticedExactly(show: Json -> string, f: Json)
    requires Prints(show)
    ensures FaultOf(show, f).Some? <==> Noticed(f)
  {
    if Located(f) {
      GpsNoticedExactly(show, f);
      if HasObj(LocationAtEnd(f), "address") {
        AreaCodeNoticedExactly(show, f);
      }
    }
  }

  /** A payload is refused if and only if it has an order and something is noticed of one of its fulfillments. */
  lemma PayloadRefusedExactly(show: Json -> string, payload: Fields)
    requires Prints(show)
    ensures Normalize(show, payload).Err? <==>
              Enrichment.HasOrder(payload) && exists f :: f in ElemsAt(Enrichment.OrderOf(payload), "fulfillments") && Noticed(f)
  {
    EnrichmentLaws.ContextIsNotMessage();
    var m := NormalContext(payload);
    assert Enrichment.HasOrder(m) <==> Enrichment.HasOrder(payload);
    if Enrichment.HasOrder(m) {
      assert Enrichment.OrderOf(m) == Enrichment.OrderOf(payload);
      var fs := ElemsAt(Enrichment.OrderOf(m), "fulfillments");
      RefusedExactly(show, fs);
      forall f | f in fs ensures FaultOf(show, f).Some? <==> Noticed(f) {
        NoticedExactly(show, f);
      }
    }
  }

  /** A missing gps is never what a payload is refused for: an order all of whose object fulfillments lack it, and
      are otherwise complete, passes. */
  lemma MissingGpsPasses(show: Json -> string, payload: Fields)
    requires Prints(show)
    requires forall f | f in ElemsAt(Enrichment.OrderOf(payload), "fulfillments") && f.Obj? ::
               Located(f) && "gps" !in LocationAtEnd(f) && HasObj(LocationAtEnd(f), "address")
               && At(ObjAt(LocationAtEnd(f), "address"), "area_code") != Str("")
    ensures Normalize(show, payload).Ok?
  {
    PayloadRefusedExactly(show, payload);
  }

  /** Nor is a missing area code. */
  lemma MissingAreaCodePasses(show: Json -> string, payload: Fields)
    requires Prints(show)
    requires forall f | f in ElemsAt(Enrichment.OrderOf(payload), "fulfillments") && f.Obj? ::
               Located(f) && At(LocationAtEnd(f), "gps") != Str("") && HasObj(LocationAtEnd(f), "address")
               && "area_code" !in ObjAt(LocationAtEnd(f), "address")
    ensures Normalize(show, payload).Ok?
  {
    PayloadRefusedExactly(show, payload);
  }

  // ---------------------------------------------------------------- normalization keeps references closed

  lemma {:induction false} FirstIDMeaning(fs: seq<Json>)
    ensures FirstID(fs) == "" <==> forall f | f in fs :: IDAt(f) == ""
    ensures FirstID(fs) != "" ==> FirstID(fs) in IDsAt(fs)
  {
    if fs != [] {
      var n := |fs| - 1;
      FirstIDMeaning(fs[..n]);
      assert fs == fs[..n] + [fs[n]];
      assert IDsAt(fs) == IDsAt(fs[..n]) + [IDAt(fs[n])];
    }
  }

  lemma PassesKeepID(show: Json -> string, f: Json)
    ensures IDAt(SecondPass(show, FirstPass(f))) == IDAt(f)
  {
    assert "id" != "type" && "id" != "state";
  }

  lemma NormalIDs(show: Json -> string, order: Fields)
    ensures FulfillmentIDs(NormalOrder(show, order)) == FulfillmentIDs(order)
  {
    OrderKeys();
    if HasArr(order, "fulfillments") {
      var fs := order["fulfillments"].elems;
      forall i | 0 <= i < |fs| ensures IDAt(NormalFulfillments(show, fs)[i]) == IDAt(fs[i]) {
        PassesKeepID(show, fs[i]);
      }
      assert IDsAt(NormalFulfillments(show, fs)) == IDsAt(fs);
    }
  }

  /** An item whose fulfillment id is missing or null. */
  predicate Unassigned(it: Json) {
    it.Obj? && At(it.fields, "fulfillment_id").Null?
  }

  lemma NormalItemRef(it: Json, firstID: string)
    ensures RefAt(NormalItem(it, firstID)) == if Unassigned(it) then firstID else RefAt(it)
  {
    assert "fulfillment_id" != "tags";
  }

  lemma NormalItemsAt(show: Json -> string, order: Fields)
    ensures HasArr(NormalOrder(show, order), "items") <==> HasArr(order, "items")
    ensures HasArr(order, "items") ==>
              NormalOrder(show, order)["items"].elems == NormalItems(order["items"].elems, FirstID(ElemsAt(order, "fulfillments")))
  {
    OrderKeys();
  }

  /** What normalization assigns: the first fulfillment id, if there is one and some item lacks it. */
  function Assigned(order: Fields): set<string> {
    var first := FirstID(ElemsAt(order, "fulfillments"));
    if first != "" && exists it :: it in ElemsAt(order, "items") && Unassigned(it) then {first} else {}
  }

  /** Items keep what they name; those that named nothing get the first fulfillment, if there is one. */
  lemma NormalRefs(show: Json -> string, order: Fields)
    ensures ItemRefs(NormalOrder(show, order)) == ItemRefs(order) + Assigned(order)
  {
    var first, items := FirstID(ElemsAt(order, "fulfillments")), ElemsAt(order, "items");
    NormalItemsAt(show, order);
    var now := NormalItems(items, first);
    forall i | 0 <= i < |items| ensures RefAt(now[i]) == if Unassigned(items[i]) then first else RefAt(items[i]) {
      NormalItemRef(items[i], first);
    }
    forall id | id in ItemRefs(order) ensures id in ItemRefs(NormalOrder(show, order)) {
      var i :| 0 <= i < |items| && RefAt(items[i]) == id;
      assert now[i] in now;
    }
    forall id | id in Assigned(order) ensures id in ItemRefs(NormalOrder(show, order)) {
      var i :| 0 <= i < |items| && Unassigned(items[i]);
      assert now[i] in now;
    }
    forall id | id in ItemRefs(NormalOrder(show, order)) ensures id in ItemRefs(order) || id in Assigned(order) {
      var i :| 0 <= i < |items| && RefAt(now[i]) == id;
      assert items[i] in items;
    }
  }

  /** No item of an order names a fulfillment the order does not hold. */
  ghost predicate NothingDangles(order: Fields) {
    forall id | id in ItemRefs(order) :: id in FulfillmentIDs(order)
  }

  /** Normalization leaves nothing dangling that did not dangle, and keeps an order closed under reference unless
      no item named a fulfillment and some item is given one. */
  lemma NormalKeepsReferences(show: Json -> string, order: Fields)
    ensures NothingDangles(order) ==> NothingDangles(NormalOrder(show, order))
    ensures ClosedUnderReference(order) && (ItemRefs(order) != {} || forall it | it in ElemsAt(order, "items") :: !Unassigned(it)) ==>
              ClosedUnderReference(NormalOrder(show, order))
  {
    NormalIDs(show, order);
    NormalRefs(show, order);
    FirstIDMeaning(ElemsAt(order, "fulfillments"));
  }

  // ---------------------------------------------------------------- the batch

  /** The clock and fresh ids of one request. */
  datatype Supply = Supply(txnID: Enrichment.NonEmpty, messageID: string, now: string)

  /** A batch uses one given transaction id throughout, or a fresh one per request. */
  function TxnOf(fixed: string, supply: nat -> Supply, i: nat): string {
    OrElse(fixed, supply(i).txnID)
  }

  function SelectContext(base: Fields, txnID: string, s: Supply): Fields {
    var c := base["action" := Str("select")]["transaction_id" := Str(txnID)]["message_id" := Str(s.messageID)]["timestamp" := Str(s.now)];
    if StrAt(c, "ttl") == "" then c["ttl" := Str("PT30S")] else c
  }

  function Request(base: Fields, order: Fields, txnID: string, s: Supply): Fields {
    map["context" := Obj(SelectContext(base, txnID, s)), "message" := Obj(map["order" := Obj(order)])]
  }

  /** The i-th request of a batch over the given orders. */
  function RequestAt(show: Json -> string, base: Fields, orders: seq<Fields>, fixed: string, supply: nat -> Supply,
                     i: nat): Result<Fields, Fault>
    requires orders != []
  {
    Normalize(show, Request(base, orders[i % |orders|], TxnOf(fixed, supply, i), supply(i)))
  }

  // ---------------------------------------------------------------- round robin

  /** A request carries an order. */
  function Carries(order: Fields): Fields -> bool {
    (p: Fields) => Enrichment.OrderOf(p) == order
  }

  /** Orders that are still told apart once normalized. */
  ghost predicate ToldApart(show: Json -> string, orders: seq<Fields>) {
    forall i, j | 0 <= i < j < |orders| :: NormalOrder(show, orders[i]) != NormalOrder(show, orders[j])
  }

  /** The requests take the orders in turn: the i-th carries the (i mod k)-th order, normalized. */
  predicate InTurn(show: Json -> string, orders: seq<Fields>, ps: seq<Fields>)
    requires orders != []
  {
    forall i | 0 <= i < |ps| :: Enrichment.OrderOf(ps[i]) == NormalOrder(show, orders[i % |orders|])
  }

  /** A batch uses each of k orders n/k times, and the first n mod k of them once more. */
  ghost predicate EvenlyUsed(show: Json -> string, orders: seq<Fields>, ps: seq<Fields>)
    requires orders != []
  {
    forall j | 0 <= j < |orders| ::
      Count(ps, Carries(NormalOrder(show, orders[j]))) == |ps| / |orders| + (if j < |ps| % |orders| then 1 else 0)
  }

  lemma {:induction false} RoundRobin(show: Json -> string, orders: seq<Fields>, ps: seq<Fields>, j: nat)
    requires j < |orders| && ToldApart(show, orders) && InTurn(show, orders, ps)
    ensures Count(ps, Carries(NormalOrder(show, orders[j]))) == |ps| / |orders| + (if j < |ps| % |orders| then 1 else 0)
  {
    var k := |orders|;
    if ps == [] {
      DivModUnique(0, k, 0, 0);
    } else {
      var n := |ps| - 1;
      assert InTurn(show, orders, ps[..n]) by {
        forall i | 0 <= i < n ensures Enrichment.OrderOf(ps[..n][i]) == NormalOrder(show, orders[i % k]) {
          assert ps[..n][i] == ps[i];
        }
      }
      RoundRobin(show, orders, ps[..n], j);
      DivModStep(n, k);
      assert Carries(NormalOrder(show, orders[j]))(ps[n]) <==> n % k == j;
    }
  }

  lemma BatchMeaning(show: Json -> string, base: Fields, orders: seq<Fields>, fixed: string, supply: nat -> Supply, ps: seq<Fields>)
    requires orders != []
    requires forall i | 0 <= i < |ps| :: RequestAt(show, base, orders, fixed, supply, i) == Ok(ps[i])
    ensures InTurn(show, orders, ps) && (ToldApart(show, orders) ==> EvenlyUsed(show, orders, ps))
  {
    forall i | 0 <= i < |ps| ensures Enrichment.OrderOf(ps[i]) == NormalOrder(show, orders[i % |orders|]) {
      assert RequestAt(show, base, orders, fixed, supply, i) == Ok(ps[i]);
      RequestMeaning(show, base, orders[i % |orders|], TxnOf(fixed, supply, i), supply(i));
    }
    if ToldApart(show, orders) {
      forall j | 0 <= j < |orders|
        ensures Count(ps, Carries(NormalOrder(show, orders[j]))) == |ps| / |orders| + (if j < |ps| % |orders| then 1 else 0)
      {
        RoundRobin(show, orders, ps, j);
      }
    }
  }

  // ---------------------------------------------------------------- building the batch

  method BuildSelectPayloads(show: Json -> string, base: Fields, orders: seq<Fields>, batchSize: nat, fixed: string, supply: nat -> Supply)
    returns (r: Result<seq<Fields>, Fault>)
    requires orders != []
    ensures r.Ok? <==> forall i: nat | i < batchSize :: RequestAt(show, base, orders, fixed, supply, i).Ok?
    ensures r.Ok? ==>
              |r.value| == batchSize && forall i | 0 <= i < batchSize :: RequestAt(show, base, orders, fixed, supply, i) == Ok(r.value[i])
    ensures r.Ok? ==> InTurn(show, orders, r.value) && (ToldApart(show, orders) ==> EvenlyUsed(show, orders, r.value))
  {
    var out: seq<Fields> := [];
    for i := 0 to batchSize
      invariant |out| == i
      invariant forall j | 0 <= j < i :: RequestAt(show, base, orders, fixed, supply, j) == Ok(out[j])
    {
      var txnID := if fixed != "" then fixed else supply(i).txnID;
      var payload := NormalizeSelectPayload(show, Request(base, orders[i % |orders|], txnID, supply(i)));
      assert payload == RequestAt(show, base, orders, fixed, supply, i);
      if payload.Err? {
        return Err(payload.error);
      }
      out := out + [payload.value];
    }
    BatchMeaning(show, base, orders, fixed, supply, out);
    r := Ok(out);
  }

  /** Requests for a catalog: up to twelve orders from it, in turn; a catalog no order can be made from falls back to
      the template's order. */
  method GenerateFromOnSearch(show: Json -> string, cat: Catalog, context: Fields, template: Fields, batchSize: int, fixed: string,
                              draws: nat -> Draw, supply: nat -> Supply)
    returns (r: Result<seq<Fields>, Fault>, ghost orders: seq<Fields>)
    requires cat.Catalog? && cat.providers != [] && cat.providers[0].items != [] ==>
               forall i: nat :: ValidDraw(|cat.providers[0].items|, draws(i))
    ensures batchSize <= 0 ==> r == Ok([])
    ensures orders != []
    ensures OrderCount(cat, 12) == 0 ==> orders == [template]
    ensures OrderCount(cat, 12) > 0 ==>
              |orders| == Min(12, |cat.providers[0].items|)
              && forall i | 0 <= i < |orders| :: Built(cat.providers[0], template, draws(i), orders[i])
    ensures batchSize > 0 && r.Ok? ==>
              |r.value| == batchSize
              && forall i | 0 <= i < batchSize :: RequestAt(show, context, orders, fixed, supply, i) == Ok(r.value[i])
    ensures batchSize > 0 && r.Ok? ==>
              InTurn(show, orders, r.value) && (ToldApart(show, orders) ==> EvenlyUsed(show, orders, r.value))
  {
    var made := BuildDistinctOrders(cat, template, 12, draws);
    if |made| == 0 {
      made := [template];
    }
    orders := made;
    if batchSize <= 0 {
      return Ok([]), made;
    }
    r := BuildSelectPayloads(show, context, made, batchSize, fixed, supply);
  }

  lemma RequestParts(base: Fields, order: Fields, txnID: string, s: Supply)
    ensures var m := NormalContext(Request(base, order, txnID, s));
            Enrichment.HasOrder(m) && Enrichment.OrderOf(m) == order && HasObj(m, "context")
            && StrAt(m["context"].fields, "transaction_id") == txnID
  {
    EnrichmentLaws.ContextIsNotMessage();
  }

  /** A request that is not refused carries its transaction id and its order, normalized. */
  lemma RequestMeaning(show: Json -> string, base: Fields, order: Fields, txnID: string, s: Supply)
    requires Normalize(show, Request(base, order, txnID, s)).Ok?
    ensures var p := Normalize(show, Request(base, order, txnID, s)).value;
            Enrichment.OrderOf(p) == NormalOrder(show, order) && HasObj(p, "context")
            && StrAt(p["context"].fields, "transaction_id") == txnID
  {
    EnrichmentLaws.ContextIsNotMessage();
    RequestParts(base, order, txnID, s);
  }

  /** The context of a request: the session's, with the action, the transaction and message ids and the time of this
      request, and a time to live where the session's is empty. */
  lemma RequestContext(show: Json -> string, base: Fields, order: Fields, txnID: string, s: Supply)
    requires Normalize(show, Request(base, order, txnID, s)).Ok?
    ensures var c := ObjAt(Normalize(show, Request(base, order, txnID, s)).value, "context");
            && At(c, "action") == Str("select") && At(c, "transaction_id") == Str(txnID)
            && At(c, "message_id") == Str(s.messageID) && At(c, "timestamp") == Str(s.now)
            && StrAt(c, "ttl") == OrElse(StrAt(base, "ttl"), "PT30S")
            && forall k | k !in {"action", "transaction_id", "message_id", "timestamp", "ttl"} :: SameAt(base, c, k)
  {
    EnrichmentLaws.ContextIsNotMessage();
    RequestParts(base, order, txnID, s);
    ContextFields(base, txnID, s);
  }

  lemma ContextFields(base: Fields, txnID: string, s: Supply)
    ensures var c := SelectContext(base, txnID, s);
            && At(c, "action") == Str("select") && At(c, "transaction_id") == Str(txnID)
            && At(c, "message_id") == Str(s.messageID) && At(c, "timestamp") == Str(s.now)
            && StrAt(c, "ttl") == OrElse(StrAt(base, "ttl"), "PT30S")
            && forall k | k !in {"action", "transaction_id", "message_id", "timestamp", "ttl"} :: SameAt(base, c, k)
  {
  }

  /** A normalized fulfillment has a type and a serviceability code: its own where it has one, else Delivery and
      Serviceable; the rest of it, of its state and of the state's descriptor is as it was. */
  ghost predicate NormalFulfillment(show: Json -> string, before: Json, after: Json) {
    if !before.Obj? then after == before
    else
      && after.Obj?
      && At(after.fields, "type") == (if At(before.fields, "type").Null? then Str("Delivery") else At(before.fields, "type"))
      && (forall k | k != "type" && k != "state" :: SameAt(before.fields, after.fields, k))
      && HasObj(after.fields, "state") && HasObj(after.fields["state"].fields, "descriptor")
      && var state, state' := ObjAt(before.fields, "state"), after.fields["state"].fields;
         var d, d' := ObjAt(state, "descriptor"), state'["descriptor"].fields;
         && (forall k | k != "descriptor" :: SameAt(state, state', k))
         && (forall k | k != "code" :: SameAt(d, d', k))
         && At(d', "code") == if !At(d, "code").Null? && show(At(d, "code")) != "" then At(d, "code") else Str("Serviceable")
  }

  lemma NormalFulfillmentMeaning(show: Json -> string, f: Json)
    ensures NormalFulfillment(show, f, SecondPass(show, FirstPass(f)))
  {
    assert "type" != "state" && "descriptor" != "code";
  }

  /** A normalized item has the item tags, and the first fulfillment where it had none; all else is as it was. */
  ghost predicate NormalItemOf(before: Json, after: Json, firstID: string) {
    if !before.Obj? then after == before
    else
      && after.Obj?
      && At(after.fields, "tags")
         == Arr([Obj(map["code" := Str("type"), "list" := Arr([Obj(map["code" := Str("type"), "value" := Str("item")])])])])
      && (if At(before.fields, "fulfillment_id") == Null && firstID != "" then At(after.fields, "fulfillment_id") == Str(firstID)
          else SameAt(before.fields, after.fields, "fulfillment_id"))
      && forall k | k != "tags" && k != "fulfillment_id" :: SameAt(before.fields, after.fields, k)
  }

  lemma NormalItemMeaning(it: Json, firstID: string)
    ensures NormalItemOf(it, NormalItem(it, firstID), firstID)
  {
    assert "fulfillment_id" != "tags";
  }

  /** The first fulfillment id that is not empty, or the empty one when all are. */
  ghost predicate FirstNamed(fs: seq<Json>, id: string) {
    if id == "" then forall i | 0 <= i < |fs| :: IDAt(fs[i]) == ""
    else exists i :: 0 <= i < |fs| && IDAt(fs[i]) == id && forall j | 0 <= j < i :: IDAt(fs[j]) == ""
  }

  lemma {:induction false} FirstIDIsFirst(fs: seq<Json>)
    ensures FirstNamed(fs, FirstID(fs))
  {
    if fs != [] {
      var n := |fs| - 1;
      var id := FirstID(fs[..n]);
      FirstIDIsFirst(fs[..n]);
      assert forall i | 0 <= i < n :: IDAt(fs[i]) == IDAt(fs[..n][i]);
      if id != "" {
        var i :| 0 <= i < n && IDAt(fs[..n][i]) == id && forall j | 0 <= j < i :: IDAt(fs[..n][j]) == "";
        assert IDAt(fs[i]) == id && forall j | 0 <= j < i :: IDAt(fs[j]) == IDAt(fs[..n][j]);
      } else {
        assert IDAt(fs[n]) == FirstID(fs);
      }
    }
  }

  /** A normalized order: its fulfillments and items normalized one by one in their places, and all else as it was. */
  ghost predicate NormalOrderOf(show: Json -> string, order: Fields, r: Fields) {
    && (forall k | k != "items" && k != "fulfillments" :: SameAt(order, r, k))
    && (if HasArr(order, "fulfillments")
        then EachNormal(ElemsAt(order, "fulfillments"), r, "fulfillments", (f, f') => NormalFulfillment(show, f, f'))
        else SameAt(order, r, "fulfillments"))
    && (if HasArr(order, "items")
        then exists id :: FirstNamed(ElemsAt(order, "fulfillments"), id)
                          && EachNormal(order["items"].elems, r, "items", (it, it') => NormalItemOf(it, it', id))
        else SameAt(order, r, "items"))
  }

  ghost predicate EachNormal(before: seq<Json>, r: Fields, k: string, normal: (Json, Json) -> bool) {
    HasArr(r, k) && |r[k].elems| == |before| && forall i | 0 <= i < |before| :: normal(before[i], r[k].elems[i])
  }

  lemma NormalOrderMeaning(show: Json -> string, order: Fields)
    ensures NormalOrderOf(show, order, NormalOrder(show, order))
  {
    var fs, r := ElemsAt(order, "fulfillments"), NormalOrder(show, order);
    var id := FirstID(fs);
    OrderKeys();
    if HasArr(order, "fulfillments") {
      forall i | 0 <= i < |fs| ensures NormalFulfillment(show, fs[i], r["fulfillments"].elems[i]) {
        NormalFulfillmentMeaning(show, fs[i]);
      }
    }
    if HasArr(order, "items") {
      FirstIDIsFirst(fs);
      forall i | 0 <= i < |order["items"].elems| ensures NormalItemOf(order["items"].elems[i], r["items"].elems[i], id) {
        NormalItemMeaning(order["items"].elems[i], id);
      }
      assert EachNormal(order["items"].elems, r, "items", (it, it') => NormalItemOf(it, it', id));
    }
  }

  /** A normalized payload: a context with a time to live, a normalized order, and all else, at every depth, as it was. */
  lemma NormalPayloadMeaning(show: Json -> string, m: Fields)
    requires Normalize(show, m).Ok?
    ensures var r := Normalize(show, m).value;
            && (forall k | k != "context" && k != "message" :: SameAt(m, r, k))
            && (if HasObj(m, "context")
                then HasObj(r, "context")
                     && StrAt(r["context"].fields, "ttl") == OrElse(StrAt(m["context"].fields, "ttl"), "PT30S")
                     && forall k | k != "ttl" :: SameAt(m["context"].fields, r["context"].fields, k)
                else SameAt(m, r, "context"))
            && (if Enrichment.HasOrder(m)
                then Enrichment.HasOrder(r) && NormalOrderOf(show, Enrichment.OrderOf(m), Enrichment.OrderOf(r))
                     && forall k | k != "order" :: SameAt(m["message"].fields, r["message"].fields, k)
                else SameAt(m, r, "message"))
  {
    var m', r := NormalContext(m), Normalize(show, m).value;
    EnrichmentLaws.ContextIsNotMessage();
    if Enrichment.HasOrder(m) {
      var order := Enrichment.OrderOf(m);
      assert Enrichment.HasOrder(m') && Enrichment.OrderOf(m') == order;
      NormalOrderMeaning(show, order);
      EnrichmentLaws.WithOrderMeaning(m', NormalOrder(show, order));
      assert SameAt(m', r, "context");
    }
  }

  lemma BuiltAssigned(p: Provider, template: Fields, d: Draw, order: Fields)
    requires Built(p, template, d, order)
    ensures forall it | it in ElemsAt(order, "items") :: !Unassigned(it)
  {
    var items := order["items"].elems;
    forall i | 0 <= i < |items| ensures !Unassigned(items[i]) {
      ItemMapMeaning(p, p.items[Chosen(d)[i]]);
    }
  }

  /** Every request made from a generated order is closed under reference as it is sent. */
  lemma RequestsAreClosed(show: Json -> string, p: Provider, template: Fields, d: Draw, order: Fields, base: Fields,
                          txnID: string, s: Supply)
    requires Built(p, template, d, order) && Normalize(show, Request(base, order, txnID, s)).Ok?
    ensures ClosedUnderReference(Enrichment.OrderOf(Normalize(show, Request(base, order, txnID, s)).value))
  {
    RequestMeaning(show, base, order, txnID, s);
    OrdersAreClosed(p, template, d, order);
    BuiltAssigned(p, template, d, order);
    NormalKeepsReferences(show, order);
  }

  function Bodies(ps: seq<Fields>): seq<Body> {
    seq(|ps|, i requires 0 <= i < |ps| => Tree(Obj(ps[i])))
  }

  lemma SentID(show: Json -> string, base: Fields, order: Fields, txnID: string, s: Supply)
    requires show(Str(txnID)) == txnID && Normalize(show, Request(base, order, txnID, s)).Ok?
    ensures BatchBuild.IdOf(show, Normalize(show, Request(base, order, txnID, s)).value) == txnID
  {
    RequestMeaning(show, base, order, txnID, s);
    var c := Normalize(show, Request(base, order, txnID, s)).value["context"].fields;
    SelectContextTxn(show, base, order, txnID, s);
    assert c["transaction_id"] == Str(txnID);
  }

  lemma SelectContextTxn(show: Json -> string, base: Fields, order: Fields, txnID: string, s: Supply)
    requires Normalize(show, Request(base, order, txnID, s)).Ok?
    ensures At(ObjAt(Normalize(show, Request(base, order, txnID, s)).value, "context"), "transaction_id") == Str(txnID)
  {
    EnrichmentLaws.ContextIsNotMessage();
    RequestParts(base, order, txnID, s);
  }

  /** The ids a batch is given. */
  function TxnIDs(fixed: string, supply: nat -> Supply, n: nat): seq<string> {
    if n == 0 then [] else TxnIDs(fixed, supply, n - 1) + [TxnOf(fixed, supply, n - 1)]
  }

  /** The ids the run extracts from its select batch are the ids the batch was given, one per request, in order. */
  lemma {:induction false} ExtractedIDs(show: Json -> string, base: Fields, orders: seq<Fields>, fixed: string,
                                        supply: nat -> Supply, ps: seq<Fields>)
    requires orders != [] && forall t: string :: show(Str(t)) == t
    requires forall i | 0 <= i < |ps| :: RequestAt(show, base, orders, fixed, supply, i) == Ok(ps[i])
    ensures BatchBuild.IdsOf(show, Bodies(ps)) == TxnIDs(fixed, supply, |ps|)
  {
    if ps != [] {
      var n := |ps| - 1;
      ExtractedIDs(show, base, orders, fixed, supply, ps[..n]);
      assert Bodies(ps)[..n] == Bodies(ps[..n]);
      assert RequestAt(show, base, orders, fixed, supply, n) == Ok(ps[n]);
      SentID(show, base, orders[n % |orders|], TxnOf(fixed, supply, n), supply(n));
      assert BatchBuild.ExtractTxnID(show, Bodies(ps)[n]) == TxnOf(fixed, supply, n);
    }
  }
}
