/** Turning a callback body into the next request: the init and confirm enrichments of an order. */
module Enrichment {
  import opened Json
  import opened Wrappers

  const CATEGORY := "@ondc/org/category"
  const TAT := "@ondc/org/TAT"

  type NonEmpty = s: string | s != "" witness "0"

  // ---------------------------------------------------------------- init: items

  /** The quantities a quote's breakup gives per item: the last positive one, in whole units. */
  function CountsOf(breakup: seq<Json>): map<string, int> {
    if breakup == [] then map[]
    else
      var pre, b := CountsOf(breakup[..|breakup| - 1]), breakup[|breakup| - 1];
      if !b.Obj? || StrAt(b.fields, "@ondc/org/item_id") == "" || !HasObj(b.fields, "@ondc/org/item_quantity") then pre
      else
        var q := b.fields["@ondc/org/item_quantity"].fields;
        if "count" in q && q["count"].Num? && q["count"].n > 0.0
        then pre[StrAt(b.fields, "@ondc/org/item_id") := q["count"].n.Floor] else pre
  }

  /** Whether a breakup line offers a positive quantity for an item. */
  predicate Offers(b: Json, id: string) {
    && b.Obj? && id != "" && StrAt(b.fields, "@ondc/org/item_id") == id && HasObj(b.fields, "@ondc/org/item_quantity")
    && var q := b.fields["@ondc/org/item_quantity"].fields; "count" in q && q["count"].Num? && q["count"].n > 0.0
  }

  /** Exactly the items some line offers are counted, each with the quantity of the last such line. */
  lemma {:induction false} CountsMeaning(breakup: seq<Json>, id: string)
    ensures id in CountsOf(breakup) <==> exists i :: 0 <= i < |breakup| && Offers(breakup[i], id)
    ensures forall i | 0 <= i < |breakup| :: Offers(breakup[i], id) && (forall j | i < j < |breakup| :: !Offers(breakup[j], id)) ==>
              CountsOf(breakup)[id] == breakup[i].fields["@ondc/org/item_quantity"].fields["count"].n.Floor
  {
    if breakup != [] {
      var n := |breakup| - 1;
      var pre := breakup[..n];
      CountsMeaning(pre, id);
      if Offers(breakup[n], id) {
      } else {
        assert id in CountsOf(breakup) <==> id in CountsOf(pre);
        assert id in CountsOf(pre) ==> CountsOf(breakup)[id] == CountsOf(pre)[id];
        forall i | 0 <= i < n ensures pre[i] == breakup[i] {
        }
      }
    }
  }

  function ItemCounts(order: Fields): map<string, int> {
    var quote := ObjAt(order, "quote");
    if HasArr(quote, "breakup") then CountsOf(quote["breakup"].elems) else map[]
  }

  function DefaultCount(counts: map<string, int>, id: string): int {
    if id in counts && counts[id] > 0 then counts[id] else 1
  }

  function EnrichItem(it: Json, counts: map<string, int>): Json {
    if !it.Obj? || StrAt(it.fields, "id") == "" then it
    else
      var q := ObjAt(it.fields, "quantity");
      var q' := if "count" in q then q else q["count" := Num(DefaultCount(counts, StrAt(it.fields, "id")) as real)];
      Obj(it.fields["quantity" := Obj(q')])
  }

  function EachItem(items: seq<Json>, counts: map<string, int>): seq<Json> {
    seq(|items|, i requires 0 <= i < |items| => EnrichItem(items[i], counts))
  }

  function EnrichItems(order: Fields): Fields {
    if !HasArr(order, "items") then order
    else order["items" := Arr(EachItem(order["items"].elems, ItemCounts(order)))]
  }

  // ---------------------------------------------------------------- init: billing and fulfillments

  const DEFAULT_BILLING_ADDRESS := [("name", "Test Buyer"), ("building", "Test Building"), ("locality", "MG Road"),
                                    ("city", "Bengaluru"), ("state", "KA"), ("country", "IND"), ("area_code", "560001")]

  const ADDRESS_DEFAULTS := [("name", "Test Buyer"), ("building", "Test Building"), ("locality", "MG Road"),
                             ("city", "Bengaluru"), ("state", "KA"), ("country", "IND")]

  function DefaultBilling(now: string): Json {
    Obj(Fill(map["address" := Obj(Fill(map[], DEFAULT_BILLING_ADDRESS))],
             [("name", "Test Buyer"), ("phone", "9999999999"), ("email", "test@example.com"), ("created_at", now), ("updated_at", now)]))
  }

  function EnrichBilling(order: Fields, now: string): Fields {
    if HasObj(order, "billing") then order else order["billing" := DefaultBilling(now)]
  }

  /** What the select request and the order's billing offer a fulfillment. */
  datatype Offer = Offer(domain: string, gps: string, areaCode: string, billingAddress: Fields)

  /** The address fields the billing address can supply: those it has as non-empty strings. */
  function FromBilling(billing: Fields, names: seq<(string, string)>): seq<(string, string)> {
    if names == [] then []
    else
      var k := names[|names| - 1].0;
      FromBilling(billing, names[..|names| - 1]) + (if StrAt(billing, k) != "" then [(k, StrAt(billing, k))] else [])
  }

  function EnrichAddress(addr: Fields, o: Offer): Fields {
    var a1 := Default(addr, "area_code", OrElse(o.areaCode, "560001"));
    Fill(Fill(a1, FromBilling(o.billingAddress, ADDRESS_DEFAULTS)), ADDRESS_DEFAULTS)
  }

  function EnrichLocation(loc: Fields, o: Offer): Fields {
    var l := Default(loc, "gps", OrElse(o.gps, "12.9716,77.5946"));
    l["address" := Obj(EnrichAddress(ObjAt(l, "address"), o))]
  }

  function EnrichEnd(end: Fields, o: Offer): Fields {
    var e := end["location" := Obj(EnrichLocation(ObjAt(end, "location"), o))];
    e["contact" := Obj(Default(ObjAt(e, "contact"), "phone", "9999999999"))]
  }

  function EnrichFulfillment(f: Json, o: Offer): Json {
    if !f.Obj? then f
    else
      var fm := f.fields["end" := Obj(EnrichEnd(ObjAt(f.fields, "end"), o))];
      Obj(if o.domain == "ONDC:RET13" then fm - {CATEGORY} else fm)
  }

  function EachFulfillment(fs: seq<Json>, o: Offer): seq<Json> {
    seq(|fs|, i requires 0 <= i < |fs| => EnrichFulfillment(fs[i], o))
  }

  function EnrichFulfillments(order: Fields, o: Offer): Fields {
    if !HasArr(order, "fulfillments") then order
    else order["fulfillments" := Arr(EachFulfillment(order["fulfillments"].elems, o))]
  }

  /** What the stored select request of the transaction says of its first fulfillment. */
  datatype Selected = Selected(gps: string, areaCode: string)

  const NOTHING_SELECTED := Selected("", "")

  /** Decoding into a structure: the value under a key, none standing as null; a type error where an object is due. */
  function Sub(j: Option<Json>, k: string): Option<Json> {
    if j.None? then None
    else
      match j.value
      case Null => Some(Null)
      case Obj(m) => Some(if k in m then m[k] else Null)
      case _ => None
  }

  function TextIn(j: Option<Json>): Option<string> {
    if j.None? then None
    else
      match j.value
      case Null => Some("")
      case Str(s) => Some(s)
      case _ => None
  }

  function SelectedIn(f: Json): Option<Selected> {
    var loc := Sub(Sub(Some(f), "end"), "location");
    var gps, areaCode := TextIn(Sub(loc, "gps")), TextIn(Sub(Sub(loc, "address"), "area_code"));
    if gps.Some? && areaCode.Some? then Some(Selected(gps.value, areaCode.value)) else None
  }

  /** All fulfillments decoded, or a type error in one of them. */
  function AllSelected(fs: seq<Json>): Option<seq<Selected>> {
    if fs == [] then Some([])
    else
      var pre, last := AllSelected(fs[..|fs| - 1]), SelectedIn(fs[|fs| - 1]);
      if pre.Some? && last.Some? then Some(pre.value + [last.value]) else None
  }

  function DecodeSelect(j: Json): Option<seq<Selected>> {
    var fs := Sub(Sub(Sub(Some(j), "message"), "order"), "fulfillments");
    if fs.None? then None
    else
      match fs.value
      case Null => Some([])
      case Arr(es) => AllSelected(es)
      case _ => None
  }

  /** What the stored select body offers: nothing when it is missing, malformed or mistyped anywhere. */
  function SelectedOf(body: Option<Body>): Selected {
    if body.None? || body.value.Malformed? then NOTHING_SELECTED
    else
      var fs := DecodeSelect(body.value.json);
      if fs.None? || fs.value == [] then NOTHING_SELECTED else fs.value[0]
  }

  /** One mistyped fulfillment, anywhere in the list, spoils the first. */
  lemma {:induction false} AllSelectedMeaning(fs: seq<Json>)
    ensures AllSelected(fs).Some? <==> forall f | f in fs :: SelectedIn(f).Some?
    ensures AllSelected(fs).Some? ==>
              |AllSelected(fs).value| == |fs| && forall i | 0 <= i < |fs| :: SelectedIn(fs[i]) == Some(AllSelected(fs).value[i])
  {
    if fs != [] {
      var n := |fs| - 1;
      AllSelectedMeaning(fs[..n]);
      assert fs == fs[..n] + [fs[n]];
    }
  }

  function DomainOf(full: Fields): string {
    StrAt(ObjAt(full, "context"), "domain")
  }

  function OfferOf(full: Fields, order: Fields, sel: Selected): Offer {
    Offer(DomainOf(full), sel.gps, sel.areaCode, ObjAt(ObjAt(order, "billing"), "address"))
  }

  function EnrichInitOrder(full: Fields, order: Fields, sel: Selected, now: string): Fields {
    var o := EnrichBilling(EnrichItems(order), now);
    EnrichFulfillments(o, OfferOf(full, o, sel))
  }

  function WithOrder(full: Fields, order: Fields): Fields {
    full["message" := Obj(ObjAt(full, "message")["order" := Obj(order)])]
  }

  function OrderOf(full: Fields): Fields {
    ObjAt(ObjAt(full, "message"), "order")
  }

  predicate HasOrder(full: Fields) {
    HasObj(full, "message") && HasObj(full["message"].fields, "order")
  }

  function EnrichInit(full: Fields, sel: Selected, now: string): Fields {
    WithOrder(full, EnrichInitOrder(full, OrderOf(full), sel, now))
  }

  // ---------------------------------------------------------------- confirm

  predicate AllowedState(s: string) {
    s == "Created" || s == "Accepted" || s == "Cancelled"
  }

  /** The clock and the fresh ids a confirm may need. */
  datatype Supply = Supply(now: string, orderID: NonEmpty, paymentTxnID: string)

  function ConfirmID(order: Fields, txnID: string, ids: Supply): Fields {
    if StrAt(order, "id") != "" then order else order["id" := Str(OrElse(txnID, ids.orderID))]
  }

  function ConfirmState(order: Fields): Fields {
    if AllowedState(StrAt(order, "state")) then order else order["state" := Str("Created")]
  }

  function ConfirmFulfillment(f: Json, personName: string): Json {
    if !f.Obj? then f
    else
      var end := ObjAt(f.fields, "end");
      var fm := f.fields["end" := Obj(end["person" := Obj(Default(ObjAt(end, "person"), "name", personName))])];
      Obj(Default(fm, TAT, "P2D"))
  }

  function EachConfirm(fs: seq<Json>, personName: string): seq<Json> {
    seq(|fs|, i requires 0 <= i < |fs| => ConfirmFulfillment(fs[i], personName))
  }

  function PersonName(order: Fields): string {
    OrElse(StrAt(ObjAt(order, "billing"), "name"), "Test Buyer")
  }

  function ConfirmFulfillments(order: Fields): Fields {
    if !HasArr(order, "fulfillments") then order
    else order["fulfillments" := Arr(EachConfirm(order["fulfillments"].elems, PersonName(order)))]
  }

  function ParamDefaults(order: Fields, ids: Supply): seq<(string, string)> {
    var price := ObjAt(ObjAt(order, "quote"), "price");
    [("amount", OrElse(StrAt(price, "value"), "0")), ("currency", OrElse(StrAt(price, "currency"), "INR")),
     ("transaction_id", ids.paymentTxnID)]
  }

  const PAYMENT_FIRST := [("uri", "https://example.com/payment"), ("tl_method", "http/get")]
  const PAYMENT_LAST := [("status", "PAID"), ("type", "ON-ORDER"), ("collected_by", "BAP")]

  function ConfirmPayment(order: Fields, ids: Supply): Fields {
    var p := Fill(ObjAt(order, "payment"), PAYMENT_FIRST);
    var q := p["params" := Obj(Fill(ObjAt(p, "params"), ParamDefaults(order, ids)))];
    order["payment" := Obj(Fill(q, PAYMENT_LAST))]
  }

  function EnrichConfirmOrder(order: Fields, txnID: string, ids: Supply): Fields {
    var o := Fill(ConfirmState(ConfirmID(order, txnID, ids)), [("created_at", ids.now), ("updated_at", ids.now)]);
    ConfirmPayment(ConfirmFulfillments(o), ids)
  }

  function EnrichConfirm(full: Fields, ids: Supply): Fields {
    WithOrder(full, EnrichConfirmOrder(OrderOf(full), StrAt(ObjAt(full, "context"), "transaction_id"), ids))
  }

  // ---------------------------------------------------------------- the imperative form

  method CountItems(breakup: seq<Json>) returns (counts: map<string, int>)
    ensures counts == CountsOf(breakup)
  {
    counts := map[];
    for i := 0 to |breakup|
      invariant counts == CountsOf(breakup[..i])
    {
      assert breakup[..i + 1][..i] == breakup[..i];
      if !breakup[i].Obj? {
        continue;
      }
      var bm := breakup[i].fields;
      var id := StrAt(bm, "@ondc/org/item_id");
      if id == "" || !HasObj(bm, "@ondc/org/item_quantity") {
        continue;
      }
      var qty := bm["@ondc/org/item_quantity"].fields;
      if "count" in qty && qty["count"].Num? && qty["count"].n > 0.0 {
        counts := counts[id := qty["count"].n.Floor];
      }
    }
    assert breakup[..|breakup|] == breakup;
  }

  method UpdateItems(order: Fields) returns (r: Fields)
    ensures r == EnrichItems(order)
  {
    var counts: map<string, int> := map[];
    var quote := ObjAt(order, "quote");
    if HasArr(quote, "breakup") {
      counts := CountItems(quote["breakup"].elems);
    }
    if !HasArr(order, "items") {
      return order;
    }
    var items := order["items"].elems;
    for i := 0 to |items|
      invariant |items| == |order["items"].elems|
      invariant forall j | 0 <= j < |items| ::
                  items[j] == if j < i then EnrichItem(order["items"].elems[j], counts) else order["items"].elems[j]
    {
      if items[i].Obj? {
        var im := items[i].fields;
        var id := StrAt(im, "id");
        if id != "" {
          var qty := ObjAt(im, "quantity");
          if "count" !in qty {
            if id in counts && counts[id] > 0 {
              qty := qty["count" := Num(counts[id] as real)];
            } else {
              qty := qty["count" := Num(1.0)];
            }
          }
          im := im["quantity" := Obj(qty)];
          items := items[i := Obj(im)];
        }
      }
    }
    assert items == EachItem(order["items"].elems, counts);
    r := order["items" := Arr(items)];
  }

  method UpdateFulfillment(f: Fields, o: Offer) returns (fm: Fields)
    ensures Obj(fm) == EnrichFulfillment(Obj(f), o)
  {
    var end := ObjAt(f, "end");
    var loc := ObjAt(end, "location");
    if !HasStr(loc, "gps") {
      loc := loc["gps" := Str(if o.gps != "" then o.gps else "12.9716,77.5946")];
    }
    var addr := ObjAt(loc, "address");
    if !HasStr(addr, "area_code") {
      addr := addr["area_code" := Str(if o.areaCode != "" then o.areaCode else "560001")];
    }
    addr := Fill(addr, FromBilling(o.billingAddress, ADDRESS_DEFAULTS));
    addr := Fill(addr, ADDRESS_DEFAULTS);
    loc := loc["address" := Obj(addr)];
    end := end["location" := Obj(loc)];
    var contact := ObjAt(end, "contact");
    if !HasStr(contact, "phone") {
      contact := contact["phone" := Str("9999999999")];
    }
    end := end["contact" := Obj(contact)];
    fm := f["end" := Obj(end)];
    if o.domain == "ONDC:RET13" {
      fm := fm - {CATEGORY};
    }
  }

  method UpdateFulfillments(order: Fields, o: Offer) returns (r: Fields)
    ensures r == EnrichFulfillments(order, o)
  {
    if !HasArr(order, "fulfillments") {
      return order;
    }
    var fulf := order["fulfillments"].elems;
    for i := 0 to |fulf|
      invariant |fulf| == |order["fulfillments"].elems|
      invariant forall j | 0 <= j < |fulf| ::
                  fulf[j] == if j < i then EnrichFulfillment(order["fulfillments"].elems[j], o) else order["fulfillments"].elems[j]
    {
      if fulf[i].Obj? {
        var f := UpdateFulfillment(fulf[i].fields, o);
        fulf := fulf[i := Obj(f)];
      }
    }
    assert fulf == EachFulfillment(order["fulfillments"].elems, o);
    r := order["fulfillments" := Arr(fulf)];
  }

  /** `select` is what the run log holds as the transaction's select request. */
  method EnrichInitInPlace(full: Fields, select: Option<Body>, now: string) returns (r: Fields)
    ensures r == EnrichInit(full, SelectedOf(select), now)
  {
    var sel := SelectedOf(select);
    var order := UpdateItems(OrderOf(full));
    order := EnrichBilling(order, now);
    order := UpdateFulfillments(order, OfferOf(full, order, sel));
    r := WithOrder(full, order);
  }

  method EnrichConfirmInPlace(full: Fields, ids: Supply) returns (r: Fields)
    ensures r == EnrichConfirm(full, ids)
  {
    var order := ConfirmID(OrderOf(full), StrAt(ObjAt(full, "context"), "transaction_id"), ids);
    order := ConfirmState(order);
    order := Fill(order, [("created_at", ids.now), ("updated_at", ids.now)]);
    if HasArr(order, "fulfillments") {
      var personName := PersonName(order);
      var fulf := order["fulfillments"].elems;
      for i := 0 to |fulf|
        invariant |fulf| == |order["fulfillments"].elems|
        invariant forall j | 0 <= j < |fulf| ::
                    fulf[j] == (var f := order["fulfillments"].elems[j]; if j < i then ConfirmFulfillment(f, personName) else f)
      {
        fulf := fulf[i := ConfirmFulfillment(fulf[i], personName)];
      }
      assert fulf == EachConfirm(order["fulfillments"].elems, personName);
      order := order["fulfillments" := Arr(fulf)];
    }
    order := ConfirmPayment(order, ids);
    r := WithOrder(full, order);
  }
}
