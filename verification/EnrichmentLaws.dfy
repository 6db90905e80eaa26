/** What the init and confirm enrichments promise: completeness, preservation and a fixpoint, on every JSON tree. */
module EnrichmentLaws {
  import opened Enrichment
  import opened Json

  // ---------------------------------------------------------------- what a finished request looks like

  predicate AddressDone(addr: Fields) {
    HasStr(addr, "area_code") && forall i | 0 <= i < |ADDRESS_DEFAULTS| :: HasStr(addr, ADDRESS_DEFAULTS[i].0)
  }

  predicate LocationDone(loc: Fields) {
    HasStr(loc, "gps") && HasObj(loc, "address") && AddressDone(loc["address"].fields)
  }

  predicate EndDone(end: Fields) {
    && HasObj(end, "location") && LocationDone(end["location"].fields)
    && HasObj(end, "contact") && HasStr(end["contact"].fields, "phone")
  }

  predicate FulfillmentDone(f: Json, domain: string) {
    f.Obj? ==>
      && HasObj(f.fields, "end") && EndDone(f.fields["end"].fields)
      && (domain == "ONDC:RET13" ==> CATEGORY !in f.fields)
  }

  predicate ItemDone(it: Json) {
    it.Obj? && StrAt(it.fields, "id") != "" ==> HasObj(it.fields, "quantity") && "count" in it.fields["quantity"].fields
  }

  predicate InitOrderDone(order: Fields, domain: string) {
    && HasObj(order, "billing")
    && (HasArr(order, "items") ==> forall i | 0 <= i < |order["items"].elems| :: ItemDone(order["items"].elems[i]))
    && (HasArr(order, "fulfillments") ==>
          forall i | 0 <= i < |order["fulfillments"].elems| :: FulfillmentDone(order["fulfillments"].elems[i], domain))
  }

  /** An init request with nothing missing. */
  predicate InitDone(full: Fields) {
    HasOrder(full) && InitOrderDone(OrderOf(full), DomainOf(full))
  }

  predicate PersonDone(f: Json) {
    f.Obj? ==>
      && HasObj(f.fields, "end") && HasObj(f.fields["end"].fields, "person")
      && HasStr(f.fields["end"].fields["person"].fields, "name") && HasStr(f.fields, TAT)
  }

  predicate ParamsDone(params: Fields) {
    HasStr(params, "amount") && HasStr(params, "currency") && HasStr(params, "transaction_id")
  }

  predicate PaymentDone(p: Fields) {
    && HasStr(p, "uri") && HasStr(p, "tl_method") && HasStr(p, "status") && HasStr(p, "type") && HasStr(p, "collected_by")
    && HasObj(p, "params") && ParamsDone(p["params"].fields)
  }

  predicate ConfirmOrderDone(order: Fields) {
    && StrAt(order, "id") != "" && AllowedState(StrAt(order, "state"))
    && HasStr(order, "created_at") && HasStr(order, "updated_at")
    && (HasArr(order, "fulfillments") ==>
          forall i | 0 <= i < |order["fulfillments"].elems| :: PersonDone(order["fulfillments"].elems[i]))
    && HasObj(order, "payment") && PaymentDone(order["payment"].fields)
  }

  /** A confirm request with nothing missing. */
  predicate ConfirmDone(full: Fields) {
    HasOrder(full) && ConfirmOrderDone(OrderOf(full))
  }

  // ---------------------------------------------------------------- what an enrichment may edit

  const AREA_DEFAULT := [("area_code", "560001")]
  const PHONE_DEFAULT := [("phone", "9999999999")]

  function AddressEdit(): Edit {
    Into(Texts(AREA_DEFAULT + ADDRESS_DEFAULTS), {})
  }

  function LocationEdit(): Edit {
    Into(map["gps" := Text, "address" := AddressEdit()], {})
  }

  function EndEdit(): Edit {
    Into(map["location" := LocationEdit(), "contact" := Into(Texts(PHONE_DEFAULT), {})], {})
  }

  function Dropped(domain: string): set<string> {
    if domain == "ONDC:RET13" then {CATEGORY} else {}
  }

  function FulfillmentEdit(domain: string): Edit {
    Into(map["end" := EndEdit()], Dropped(domain))
  }

  function QuantityEdit(): Edit {
    Into(map["count" := Kept], {})
  }

  function ItemEdit(): Edit {
    Into(map["quantity" := QuantityEdit()], {})
  }

  function InitEdit(domain: string): Edit {
    Into(map["items" := Each(ItemEdit()), "billing" := Whole, "fulfillments" := Each(FulfillmentEdit(domain))], {})
  }

  function PersonEdit(): Edit {
    Into(map["end" := Into(map["person" := Into(Texts(NAME_DEFAULT), {})], {}), TAT := Text], {})
  }

  const NAME_DEFAULT := [("name", "Test Buyer")]
  const PARAM_NAMES := [("amount", "0"), ("currency", "INR"), ("transaction_id", "")]

  function PaymentEdit(): Edit {
    Into(Texts(PAYMENT_FIRST + PAYMENT_LAST)["params" := Into(Texts(PARAM_NAMES), {})], {})
  }

  function ConfirmEdit(): Edit {
    Into(map["id" := Free, "state" := Free, "created_at" := Text, "updated_at" := Text,
             "fulfillments" := Each(PersonEdit()), "payment" := PaymentEdit()], {})
  }

  /** Only the order of a request is edited. */
  function RequestEdit(order: Edit): Edit {
    Into(map["message" := Into(map["order" := order], {})], {})
  }

  // ---------------------------------------------------------------- which element completes which

  ghost predicate ItemCompletes(before: Json, after: Json) {
    ItemDone(after) && Follows(ItemEdit(), before, after) && (before.Obj? <==> after.Obj?)
  }

  ghost predicate FulfillmentCompletes(before: Json, after: Json, domain: string) {
    FulfillmentDone(after, domain) && Follows(FulfillmentEdit(domain), before, after) && (before.Obj? <==> after.Obj?)
  }

  ghost predicate PersonCompletes(before: Json, after: Json) {
    PersonDone(after) && Follows(PersonEdit(), before, after) && (before.Obj? <==> after.Obj?)
  }

  /** An array under a key stays an array, of the same length. */
  predicate SameArray(before: Fields, after: Fields, k: string) {
    && (HasArr(before, k) <==> HasArr(after, k))
    && (HasArr(before, k) ==> |before[k].elems| == |after[k].elems|)
  }

  ghost predicate ItemsComplete(before: Fields, after: Fields) {
    && SameArray(before, after, "items")
    && (HasArr(before, "items") ==>
          forall i | 0 <= i < |before["items"].elems| :: ItemCompletes(before["items"].elems[i], after["items"].elems[i]))
  }

  ghost predicate FulfillmentsComplete(before: Fields, after: Fields, domain: string) {
    && SameArray(before, after, "fulfillments")
    && (HasArr(before, "fulfillments") ==>
          forall i | 0 <= i < |before["fulfillments"].elems| ::
            FulfillmentCompletes(before["fulfillments"].elems[i], after["fulfillments"].elems[i], domain))
  }

  ghost predicate PersonsComplete(before: Fields, after: Fields) {
    && SameArray(before, after, "fulfillments")
    && (HasArr(before, "fulfillments") ==>
          forall i | 0 <= i < |before["fulfillments"].elems| ::
            PersonCompletes(before["fulfillments"].elems[i], after["fulfillments"].elems[i]))
  }

  // ---------------------------------------------------------------- init completes, keeps, and is a fixpoint

  function AddressFills(o: Offer): seq<(string, string)> {
    [("area_code", OrElse(o.areaCode, "560001"))] + FromBilling(o.billingAddress, ADDRESS_DEFAULTS) + ADDRESS_DEFAULTS
  }

  lemma DefaultIsFill(m: Fields, k: string, v: string)
    ensures Default(m, k, v) == Fill(m, [(k, v)])
  {
    assert [(k, v)][..0] == [];
    assert Fill(m, []) == m;
  }

  lemma AddressIsFill(addr: Fields, o: Offer)
    ensures EnrichAddress(addr, o) == Fill(addr, AddressFills(o))
  {
    var a := [("area_code", OrElse(o.areaCode, "560001"))];
    var b := FromBilling(o.billingAddress, ADDRESS_DEFAULTS);
    DefaultIsFill(addr, "area_code", OrElse(o.areaCode, "560001"));
    FillConcat(addr, a, b);
    FillConcat(addr, a + b, ADDRESS_DEFAULTS);
  }

  lemma {:induction false} FromBillingNames(billing: Fields, names: seq<(string, string)>, i: nat)
    requires i < |FromBilling(billing, names)|
    ensures exists j :: 0 <= j < |names| && names[j].0 == FromBilling(billing, names)[i].0
  {
    var n := |names| - 1;
    var pre := FromBilling(billing, names[..n]);
    if i < |pre| {
      FromBillingNames(billing, names[..n], i);
      var j :| 0 <= j < n && names[..n][j].0 == pre[i].0;
      assert names[j].0 == FromBilling(billing, names)[i].0;
    } else {
      assert names[n].0 == FromBilling(billing, names)[i].0;
    }
  }

  lemma AddressCompleted(addr: Fields, o: Offer)
    ensures AddressDone(EnrichAddress(addr, o))
  {
    var ds := AddressFills(o);
    AddressIsFill(addr, o);
    assert ds[0].0 == "area_code";
    FillMeaning(addr, ds, "area_code");
    forall i | 0 <= i < |ADDRESS_DEFAULTS| ensures HasStr(EnrichAddress(addr, o), ADDRESS_DEFAULTS[i].0) {
      assert ds[|ds| - |ADDRESS_DEFAULTS| + i] == ADDRESS_DEFAULTS[i];
      FillMeaning(addr, ds, ADDRESS_DEFAULTS[i].0);
    }
  }

  lemma AddressFixed(addr: Fields, o: Offer)
    requires AddressDone(addr)
    ensures EnrichAddress(addr, o) == addr
  {
    var b := FromBilling(o.billingAddress, ADDRESS_DEFAULTS);
    forall i | 0 <= i < |b| ensures HasStr(addr, b[i].0) {
      FromBillingNames(o.billingAddress, ADDRESS_DEFAULTS, i);
    }
    FillDone(addr, b);
    FillDone(addr, ADDRESS_DEFAULTS);
  }

  lemma AddressEdited(addr: Fields, o: Offer)
    ensures Follows(AddressEdit(), Obj(addr), Obj(EnrichAddress(addr, o)))
  {
    var a := [("area_code", OrElse(o.areaCode, "560001"))];
    var b := FromBilling(o.billingAddress, ADDRESS_DEFAULTS);
    var all := AREA_DEFAULT + ADDRESS_DEFAULTS;
    AddressIsFill(addr, o);
    forall i | 0 <= i < |AddressFills(o)| ensures Names(all, AddressFills(o)[i].0) {
      var k := AddressFills(o)[i].0;
      NamesConcat(AREA_DEFAULT, ADDRESS_DEFAULTS, k);
      if i < |a| {
        assert AREA_DEFAULT[0].0 == k;
      } else if i < |a| + |b| {
        assert AddressFills(o)[i] == b[i - |a|];
        FromBillingNames(o.billingAddress, ADDRESS_DEFAULTS, i - |a|);
      } else {
        assert AddressFills(o)[i] == ADDRESS_DEFAULTS[i - |a| - |b|];
      }
    }
    FillFollows(addr, AddressFills(o), all);
  }

  lemma LocationParts(loc: Fields, o: Offer)
    ensures var gps := Default(loc, "gps", OrElse(o.gps, "12.9716,77.5946"))["gps"];
            EnrichLocation(loc, o) == loc["gps" := gps]["address" := Obj(EnrichAddress(ObjAt(loc, "address"), o))]
  {
    assert "gps" != "address";
    DefaultIsPut(loc, "gps", OrElse(o.gps, "12.9716,77.5946"));
  }

  lemma LocationCompleted(loc: Fields, o: Offer)
    ensures LocationDone(EnrichLocation(loc, o))
  {
    LocationParts(loc, o);
    AddressCompleted(ObjAt(loc, "address"), o);
  }

  lemma LocationEdited(loc: Fields, o: Offer)
    ensures Follows(LocationEdit(), Obj(loc), Obj(EnrichLocation(loc, o)))
  {
    var addr := EnrichAddress(ObjAt(loc, "address"), o);
    LocationParts(loc, o);
    AddressEdited(ObjAt(loc, "address"), o);
    PutFollows(loc, "address", addr, AddressEdit());
    DefaultIsPut(loc, "gps", OrElse(o.gps, "12.9716,77.5946"));
    PutTwo(loc, "gps", Default(loc, "gps", OrElse(o.gps, "12.9716,77.5946"))["gps"], "address", Obj(addr), LocationEdit().edits);
  }

  lemma LocationFixed(loc: Fields, o: Offer)
    requires LocationDone(loc)
    ensures EnrichLocation(loc, o) == loc
  {
    AddressFixed(loc["address"].fields, o);
    PutSame(loc, "address");
  }

  lemma ContactEdited(contact: Fields)
    ensures Follows(Into(Texts(PHONE_DEFAULT), {}), Obj(contact), Obj(Default(contact, "phone", "9999999999")))
  {
    DefaultIsFill(contact, "phone", "9999999999");
    assert PHONE_DEFAULT[0].0 == "phone";
    FillFollows(contact, [("phone", "9999999999")], PHONE_DEFAULT);
  }

  lemma EndParts(end: Fields, o: Offer)
    ensures EnrichEnd(end, o) == end["location" := Obj(EnrichLocation(ObjAt(end, "location"), o))]
                                    ["contact" := Obj(Default(ObjAt(end, "contact"), "phone", "9999999999"))]
  {
    assert "location" != "contact";
  }

  lemma EndCompleted(end: Fields, o: Offer)
    ensures EndDone(EnrichEnd(end, o))
  {
    EndParts(end, o);
    LocationCompleted(ObjAt(end, "location"), o);
  }

  lemma EndEdited(end: Fields, o: Offer)
    ensures Follows(EndEdit(), Obj(end), Obj(EnrichEnd(end, o)))
  {
    var loc, contact := EnrichLocation(ObjAt(end, "location"), o), Default(ObjAt(end, "contact"), "phone", "9999999999");
    EndParts(end, o);
    LocationEdited(ObjAt(end, "location"), o);
    ContactEdited(ObjAt(end, "contact"));
    PutFollows(end, "location", loc, LocationEdit());
    PutFollows(end, "contact", contact, Into(Texts(PHONE_DEFAULT), {}));
    PutTwo(end, "location", Obj(loc), "contact", Obj(contact), EndEdit().edits);
  }

  lemma EndFixed(end: Fields, o: Offer)
    requires EndDone(end)
    ensures EnrichEnd(end, o) == end
  {
    LocationFixed(end["location"].fields, o);
    PutSame(end, "location");
    PutSame(end, "contact");
  }

  lemma EndIsNotCategory()
    ensures "end" != CATEGORY && "end" != TAT
  {
  }

  lemma FulfillmentCompleted(f: Json, o: Offer)
    ensures FulfillmentCompletes(f, EnrichFulfillment(f, o), o.domain)
  {
    if f.Obj? {
      var end := EnrichEnd(ObjAt(f.fields, "end"), o);
      EndIsNotCategory();
      EndCompleted(ObjAt(f.fields, "end"), o);
      EndEdited(ObjAt(f.fields, "end"), o);
      PutFollows(f.fields, "end", end, EndEdit());
      PutOne(f.fields, "end", Obj(end), FulfillmentEdit(o.domain).edits, Dropped(o.domain));
      assert f.fields["end" := Obj(end)] - {} == f.fields["end" := Obj(end)];
    }
  }

  lemma FulfillmentFixed(f: Json, o: Offer)
    requires FulfillmentDone(f, o.domain)
    ensures EnrichFulfillment(f, o) == f
  {
    if f.Obj? {
      EndFixed(f.fields["end"].fields, o);
      PutSame(f.fields, "end");
    }
  }

  /** An item with an id gets a count; a count that was missing becomes a whole number of at least one. */
  lemma ItemCompleted(it: Json, counts: map<string, int>)
    ensures ItemCompletes(it, EnrichItem(it, counts))
    ensures it.Obj? && StrAt(it.fields, "id") != "" && "count" !in ObjAt(it.fields, "quantity") ==>
              var n := DefaultCount(counts, StrAt(it.fields, "id"));
              n >= 1 && EnrichItem(it, counts).fields["quantity"].fields["count"] == Num(n as real)
  {
    if it.Obj? && StrAt(it.fields, "id") != "" {
      assert "id" != "quantity";
      PutFollows(it.fields, "quantity", EnrichItem(it, counts).fields["quantity"].fields, QuantityEdit());
    }
  }

  lemma ItemFixed(it: Json, counts: map<string, int>)
    requires ItemDone(it)
    ensures EnrichItem(it, counts) == it
  {
    if it.Obj? && StrAt(it.fields, "id") != "" {
      PutSame(it.fields, "quantity");
    }
  }

  lemma InitOrderCompleted(full: Fields, order: Fields, sel: Selected, now: string)
    ensures var r := EnrichInitOrder(full, order, sel, now);
            ItemsComplete(order, r) && FulfillmentsComplete(order, r, DomainOf(full)) && HasObj(r, "billing")
  {
    InitOrderParts(full, order, sel, now);
    var offer := OfferOf(full, EnrichBilling(EnrichItems(order), now), sel);
    if HasArr(order, "items") {
      var items := order["items"].elems;
      forall i | 0 <= i < |items| ensures ItemCompletes(items[i], EachItem(items, ItemCounts(order))[i]) {
        ItemCompleted(items[i], ItemCounts(order));
      }
    }
    if HasArr(order, "fulfillments") {
      var fs := order["fulfillments"].elems;
      forall i | 0 <= i < |fs| ensures FulfillmentCompletes(fs[i], EachFulfillment(fs, offer)[i], DomainOf(full)) {
        FulfillmentCompleted(fs[i], offer);
      }
    }
  }

  lemma ItemsEdited(before: Fields, after: Fields)
    requires ItemsComplete(before, after) && HasArr(before, "items")
    ensures Follows(Each(ItemEdit()), before["items"], after["items"])
  {
    var xs, ys := before["items"].elems, after["items"].elems;
    forall i | 0 <= i < |xs|
      ensures if xs[i].Obj? then ys[i].Obj? && Follows(ItemEdit(), xs[i], ys[i]) else xs[i] == ys[i]
    {
      assert ItemCompletes(xs[i], ys[i]);
    }
  }

  lemma FulfillmentsEdited(before: Fields, after: Fields, domain: string)
    requires FulfillmentsComplete(before, after, domain) && HasArr(before, "fulfillments")
    ensures Follows(Each(FulfillmentEdit(domain)), before["fulfillments"], after["fulfillments"])
  {
    var xs, ys := before["fulfillments"].elems, after["fulfillments"].elems;
    forall i | 0 <= i < |xs|
      ensures if xs[i].Obj? then ys[i].Obj? && Follows(FulfillmentEdit(domain), xs[i], ys[i]) else xs[i] == ys[i]
    {
      assert FulfillmentCompletes(xs[i], ys[i], domain);
    }
  }

  lemma InitOrderEdited(full: Fields, order: Fields, sel: Selected, now: string)
    ensures Follows(InitEdit(DomainOf(full)), Obj(order), Obj(EnrichInitOrder(full, order, sel, now)))
  {
    var r := EnrichInitOrder(full, order, sel, now);
    InitOrderParts(full, order, sel, now);
    forall k ensures KeyFollows(InitEdit(DomainOf(full)).edits, order, r, k) && (k in order ==> k in r) {
      InitKeyEdited(full, order, sel, now, k);
    }
    IntoFollows(order, r, InitEdit(DomainOf(full)).edits, {});
  }

  lemma InitKeyEdited(full: Fields, order: Fields, sel: Selected, now: string, k: string)
    ensures var r := EnrichInitOrder(full, order, sel, now);
            KeyFollows(InitEdit(DomainOf(full)).edits, order, r, k) && (k in order ==> k in r)
  {
    var r := EnrichInitOrder(full, order, sel, now);
    OrderKeys();
    InitOrderParts(full, order, sel, now);
    InitOrderCompleted(full, order, sel, now);
    if k == "items" && HasArr(order, "items") {
      ItemsEdited(order, r);
    } else if k == "fulfillments" && HasArr(order, "fulfillments") {
      FulfillmentsEdited(order, r, DomainOf(full));
    }
  }

  /** Which keys of the order an init enrichment edits, and to what. */
  lemma InitOrderParts(full: Fields, order: Fields, sel: Selected, now: string)
    ensures var o := EnrichBilling(EnrichItems(order), now);
            var r := EnrichInitOrder(full, order, sel, now);
            && (forall k | k != "items" && k != "billing" && k != "fulfillments" :: SameAt(order, r, k))
            && (HasArr(order, "items") ==> "items" in r && r["items"] == Arr(EachItem(order["items"].elems, ItemCounts(order))))
            && (!HasArr(order, "items") ==> SameAt(order, r, "items"))
            && HasObj(r, "billing") && (HasObj(order, "billing") ==> r["billing"] == order["billing"])
            && (HasArr(order, "fulfillments") ==>
                  "fulfillments" in r && r["fulfillments"] == Arr(EachFulfillment(order["fulfillments"].elems, OfferOf(full, o, sel))))
            && (!HasArr(order, "fulfillments") ==> SameAt(order, r, "fulfillments"))
  {
    OrderKeys();
  }

  lemma OrderKeys()
    ensures "items" != "billing" && "items" != "fulfillments" && "billing" != "fulfillments"
  {
  }

  lemma InitOrderFixed(full: Fields, order: Fields, sel: Selected, now: string)
    requires InitOrderDone(order, DomainOf(full))
    ensures EnrichInitOrder(full, order, sel, now) == order
  {
    if HasArr(order, "items") {
      var items, counts := order["items"].elems, ItemCounts(order);
      forall i | 0 <= i < |items| ensures EachItem(items, counts)[i] == items[i] {
        ItemFixed(items[i], counts);
      }
      assert EachItem(items, counts) == items;
      PutSame(order, "items");
    }
    assert EnrichItems(order) == order;
    var offer := OfferOf(full, order, sel);
    if HasArr(order, "fulfillments") {
      var fs := order["fulfillments"].elems;
      forall i | 0 <= i < |fs| ensures EachFulfillment(fs, offer)[i] == fs[i] {
        FulfillmentFixed(fs[i], offer);
      }
      assert EachFulfillment(fs, offer) == fs;
      PutSame(order, "fulfillments");
    }
  }

  lemma ContextIsNotMessage()
    ensures "context" != "message"
  {
    assert "context"[0] == 'c' && "message"[0] == 'm';
  }

  lemma WithOrderMeaning(full: Fields, order: Fields)
    ensures HasOrder(WithOrder(full, order)) && OrderOf(WithOrder(full, order)) == order
    ensures DomainOf(WithOrder(full, order)) == DomainOf(full)
  {
    ContextIsNotMessage();
  }

  lemma InitContext(full: Fields, sel: Selected, now: string)
    ensures ObjAt(EnrichInit(full, sel, now), "context") == ObjAt(full, "context")
  {
    ContextIsNotMessage();
  }

  lemma ConfirmContext(full: Fields, ids: Supply)
    ensures ObjAt(EnrichConfirm(full, ids), "context") == ObjAt(full, "context")
  {
    ContextIsNotMessage();
  }

  lemma WithOrderSame(full: Fields)
    requires HasOrder(full)
    ensures WithOrder(full, OrderOf(full)) == full
  {
    PutSame(full["message"].fields, "order");
    PutSame(full, "message");
  }

  /** Enriching an init leaves nothing missing, whatever the callback held: items and fulfillments stay arrays of the
      same length, and each element of the result completes the element of the callback at its place. Enriching
      changes nothing exactly when nothing was missing, whatever the select request and the clock say. */
  lemma InitCompletes(full: Fields, sel: Selected, now: string)
    ensures InitDone(EnrichInit(full, sel, now))
    ensures ItemsComplete(OrderOf(full), OrderOf(EnrichInit(full, sel, now)))
    ensures FulfillmentsComplete(OrderOf(full), OrderOf(EnrichInit(full, sel, now)), DomainOf(full))
    ensures EnrichInit(full, sel, now) == full <==> InitDone(full)
  {
    var order := EnrichInitOrder(full, OrderOf(full), sel, now);
    InitOrderCompleted(full, OrderOf(full), sel, now);
    WithOrderMeaning(full, order);
    CompleteMeansDone(OrderOf(full), order, DomainOf(full));
    if InitDone(full) {
      InitOrderFixed(full, OrderOf(full), sel, now);
      WithOrderSame(full);
    }
  }

  lemma CompleteMeansDone(before: Fields, after: Fields, domain: string)
    requires ItemsComplete(before, after) && FulfillmentsComplete(before, after, domain) && HasObj(after, "billing")
    ensures InitOrderDone(after, domain)
  {
    if HasArr(after, "items") {
      forall i | 0 <= i < |after["items"].elems| ensures ItemDone(after["items"].elems[i]) {
        assert ItemCompletes(before["items"].elems[i], after["items"].elems[i]);
      }
    }
    if HasArr(after, "fulfillments") {
      forall i | 0 <= i < |after["fulfillments"].elems| ensures FulfillmentDone(after["fulfillments"].elems[i], domain) {
        assert FulfillmentCompletes(before["fulfillments"].elems[i], after["fulfillments"].elems[i], domain);
      }
    }
  }

  lemma InitIdempotent(full: Fields, sel: Selected, now: string, sel': Selected, now': string)
    ensures EnrichInit(EnrichInit(full, sel, now), sel', now') == EnrichInit(full, sel, now)
  {
    InitCompletes(full, sel, now);
    InitCompletes(EnrichInit(full, sel, now), sel', now');
  }

  lemma RequestEdited(full: Fields, order: Fields, e: Edit)
    requires e.Into? && Follows(e, Obj(OrderOf(full)), Obj(order))
    ensures Follows(RequestEdit(e), Obj(full), Obj(WithOrder(full, order)))
  {
    var msg := ObjAt(full, "message");
    var msg' := msg["order" := Obj(order)];
    PutFollows(msg, "order", order, e);
    assert Follows(Into(map["order" := e], {}), Obj(msg), Obj(msg'));
    PutFollows(full, "message", msg', Into(map["order" := e], {}));
  }

  /** An enriched init is the callback but for the edits of `InitEdit`: all other values are as they were, at every
      depth; the category of a fulfillment goes only from the fulfillment itself, and only in domain RET13; items
      and fulfillments stay arrays of the same length. */
  lemma InitKeeps(full: Fields, sel: Selected, now: string)
    ensures Follows(RequestEdit(InitEdit(DomainOf(full))), Obj(full), Obj(EnrichInit(full, sel, now)))
    ensures SameArray(OrderOf(full), OrderOf(EnrichInit(full, sel, now)), "items")
    ensures SameArray(OrderOf(full), OrderOf(EnrichInit(full, sel, now)), "fulfillments")
  {
    InitOrderEdited(full, OrderOf(full), sel, now);
    RequestEdited(full, EnrichInitOrder(full, OrderOf(full), sel, now), InitEdit(DomainOf(full)));
    InitCompletes(full, sel, now);
  }

  lemma AddressNamesDiffer()
    ensures "name" != "city" && "building" != "locality"
  {
    assert "name"[0] == 'n' && "city"[0] == 'c' && "building"[0] == 'b' && "locality"[0] == 'l';
  }

  lemma {:induction false} FromBillingValue(billing: Fields, names: seq<(string, string)>, k: string)
    ensures Names(FromBilling(billing, names), k) <==> Names(names, k) && StrAt(billing, k) != ""
    ensures Names(FromBilling(billing, names), k) ==> FirstOf(FromBilling(billing, names), k) == StrAt(billing, k)
  {
    if names != [] {
      var n := |names| - 1;
      var pre := FromBilling(billing, names[..n]);
      var last := if StrAt(billing, names[n].0) != "" then [(names[n].0, StrAt(billing, names[n].0))] else [];
      FromBillingValue(billing, names[..n], k);
      LastNames(names, k);
      NamesConcat(pre, last, k);
      FirstOfConcat(pre, last, k);
      if last != [] {
        LastNames(last, k);
        assert last[..0] == [];
      }
    }
  }

  lemma DefaultAt(i: nat)
    requires i < |ADDRESS_DEFAULTS|
    ensures Names(ADDRESS_DEFAULTS, ADDRESS_DEFAULTS[i].0)
    ensures FirstOf(ADDRESS_DEFAULTS, ADDRESS_DEFAULTS[i].0) == ADDRESS_DEFAULTS[i].1
    ensures !Names(AREA_DEFAULT, ADDRESS_DEFAULTS[i].0)
  {
    AddressNamesDiffer();
    FirstOfAt(ADDRESS_DEFAULTS, i);
  }

  lemma {:induction false} FirstOfAt(ds: seq<(string, string)>, i: nat)
    requires i < |ds| && forall j | 0 <= j < i :: ds[j].0 != ds[i].0
    ensures Names(ds, ds[i].0) && FirstOf(ds, ds[i].0) == ds[i].1
  {
    var n := |ds| - 1;
    LastNames(ds, ds[i].0);
    if i < n {
      FirstOfAt(ds[..n], i);
    }
  }

  /** A missing address field is taken from the billing address, and from the defaults where that has none either. */
  lemma AddressValue(addr: Fields, o: Offer, i: nat)
    requires i < |ADDRESS_DEFAULTS|
    ensures var k := ADDRESS_DEFAULTS[i].0;
            StrAt(EnrichAddress(addr, o), k)
            == if HasStr(addr, k) then addr[k].s else OrElse(StrAt(o.billingAddress, k), ADDRESS_DEFAULTS[i].1)
  {
    var k := ADDRESS_DEFAULTS[i].0;
    var a, b := [("area_code", OrElse(o.areaCode, "560001"))], FromBilling(o.billingAddress, ADDRESS_DEFAULTS);
    DefaultAt(i);
    AddressIsFill(addr, o);
    FromBillingValue(o.billingAddress, ADDRESS_DEFAULTS, k);
    NamesConcat(a, b, k);
    NamesConcat(a + b, ADDRESS_DEFAULTS, k);
    FirstOfConcat(a, b, k);
    FirstOfConcat(a + b, ADDRESS_DEFAULTS, k);
    assert !Names(a, k) by {
      LastNames(a, k);
      assert AREA_DEFAULT[0].0 == a[0].0;
      assert a[..0] == [];
    }
    FillValue(addr, AddressFills(o), k);
  }

  /** Missing gps and area code are taken from the select request, a missing phone from the default. */
  lemma EndValues(end: Fields, o: Offer)
    ensures var loc := ObjAt(end, "location");
            var addr := ObjAt(loc, "address");
            var loc' := ObjAt(EnrichEnd(end, o), "location");
            && StrAt(loc', "gps") == (if HasStr(loc, "gps") then loc["gps"].s else OrElse(o.gps, "12.9716,77.5946"))
            && StrAt(ObjAt(loc', "address"), "area_code")
               == (if HasStr(addr, "area_code") then addr["area_code"].s else OrElse(o.areaCode, "560001"))
    ensures var contact := ObjAt(end, "contact");
            StrAt(ObjAt(EnrichEnd(end, o), "contact"), "phone")
            == if HasStr(contact, "phone") then contact["phone"].s else "9999999999"
  {
    var addr := ObjAt(ObjAt(end, "location"), "address");
    assert "gps" != "address" && "location" != "contact";
    AreaCodeValue(addr, o);
  }

  lemma AreaCodeValue(addr: Fields, o: Offer)
    ensures StrAt(EnrichAddress(addr, o), "area_code")
         == if HasStr(addr, "area_code") then addr["area_code"].s else OrElse(o.areaCode, "560001")
  {
    AddressIsFill(addr, o);
    FirstOfAt(AddressFills(o), 0);
    FillValue(addr, AddressFills(o), "area_code");
  }

  // ---------------------------------------------------------------- confirm completes, keeps, and is a fixpoint

  lemma PersonEdited(end: Fields, personName: string)
    ensures var person := Default(ObjAt(end, "person"), "name", personName);
            Follows(Into(map["person" := Into(Texts(NAME_DEFAULT), {})], {}), Obj(end), Obj(end["person" := Obj(person)]))
  {
    var person := Default(ObjAt(end, "person"), "name", personName);
    DefaultIsFill(ObjAt(end, "person"), "name", personName);
    assert NAME_DEFAULT[0].0 == "name";
    FillFollows(ObjAt(end, "person"), [("name", personName)], NAME_DEFAULT);
    PutFollows(end, "person", person, Into(Texts(NAME_DEFAULT), {}));
  }

  lemma PersonCompleted(f: Json, personName: string)
    ensures PersonCompletes(f, ConfirmFulfillment(f, personName))
  {
    if f.Obj? {
      var fm, end := f.fields, ObjAt(f.fields, "end");
      var end' := end["person" := Obj(Default(ObjAt(end, "person"), "name", personName))];
      EndIsNotCategory();
      PersonEdited(end, personName);
      PutFollows(fm, "end", end', Into(map["person" := Into(Texts(NAME_DEFAULT), {})], {}));
      PersonPut(fm, end');
    }
  }

  lemma PersonPut(fm: Fields, end: Fields)
    requires MayPut(fm, "end", Obj(end), Into(map["person" := Into(Texts(NAME_DEFAULT), {})], {}))
    ensures Follows(PersonEdit(), Obj(fm), Obj(Default(fm["end" := Obj(end)], TAT, "P2D")))
  {
    EndIsNotCategory();
    var v := Default(fm, TAT, "P2D")[TAT];
    DefaultIsPut(fm, TAT, "P2D");
    PutTwo(fm, "end", Obj(end), TAT, v, PersonEdit().edits);
    assert Default(fm["end" := Obj(end)], TAT, "P2D") == fm["end" := Obj(end)][TAT := v];
  }

  lemma PersonFixed(f: Json, personName: string)
    requires PersonDone(f)
    ensures ConfirmFulfillment(f, personName) == f
  {
    if f.Obj? {
      PutSame(f.fields["end"].fields, "person");
      PutSame(f.fields, "end");
    }
  }

  /** The payment a confirm is given: first defaults, params, last defaults. */
  function PaymentOf(p: Fields, params: seq<(string, string)>): Fields {
    var q := Fill(p, PAYMENT_FIRST);
    Fill(q["params" := Obj(Fill(ObjAt(q, "params"), params))], PAYMENT_LAST)
  }

  lemma ParamsNotNamed()
    ensures !Names(PAYMENT_FIRST, "params") && !Names(PAYMENT_LAST, "params")
  {
    assert "params"[0] == 'p' && "status"[0] == 's';
  }

  lemma PaymentKeys(p: Fields, params: seq<(string, string)>, k: string)
    ensures k != "params" && (Names(PAYMENT_FIRST, k) || Names(PAYMENT_LAST, k)) ==> HasStr(PaymentOf(p, params), k)
    ensures k in p && k != "params" ==>
              k in PaymentOf(p, params)
              && Follows(if Names(PAYMENT_FIRST, k) || Names(PAYMENT_LAST, k) then Text else Kept, p[k], PaymentOf(p, params)[k])
    ensures k !in p && k != "params" && k in PaymentOf(p, params) ==>
              (Names(PAYMENT_FIRST, k) || Names(PAYMENT_LAST, k)) && PaymentOf(p, params)[k].Str?
    ensures HasObj(PaymentOf(p, params), "params")
    ensures PaymentOf(p, params)["params"].fields == Fill(ObjAt(p, "params"), params)
  {
    var q := Fill(p, PAYMENT_FIRST);
    var q' := q["params" := Obj(Fill(ObjAt(q, "params"), params))];
    ParamsNotNamed();
    FillMeaning(p, PAYMENT_FIRST, k);
    FillMeaning(p, PAYMENT_FIRST, "params");
    FillMeaning(q', PAYMENT_LAST, k);
    FillMeaning(q', PAYMENT_LAST, "params");
  }

  lemma PaymentCompleted(p: Fields, order: Fields, ids: Supply)
    ensures PaymentDone(PaymentOf(p, ParamDefaults(order, ids)))
    ensures Follows(PaymentEdit(), Obj(p), Obj(PaymentOf(p, ParamDefaults(order, ids))))
  {
    var ds := ParamDefaults(order, ids);
    PaymentStrings(p, ds);
    ParamsFilled(ObjAt(p, "params"), order, ids);
    PaymentEdited(p, order, ids);
  }

  lemma ParamsFilled(params: Fields, order: Fields, ids: Supply)
    ensures ParamsDone(Fill(params, ParamDefaults(order, ids)))
    ensures Follows(Into(Texts(PARAM_NAMES), {}), Obj(params), Obj(Fill(params, ParamDefaults(order, ids))))
  {
    var ds := ParamDefaults(order, ids);
    assert ds[0].0 == "amount" && ds[1].0 == "currency" && ds[2].0 == "transaction_id";
    FillMeaning(params, ds, "amount");
    FillMeaning(params, ds, "currency");
    FillMeaning(params, ds, "transaction_id");
    forall i | 0 <= i < |ds| ensures Names(PARAM_NAMES, ds[i].0) {
      assert PARAM_NAMES[i].0 == ds[i].0;
    }
    FillFollows(params, ds, PARAM_NAMES);
  }

  /** Missing params are taken from the price of the order's quote, and from the defaults where that has none. */
  lemma ParamValues(params: Fields, order: Fields, ids: Supply)
    ensures var price := ObjAt(ObjAt(order, "quote"), "price");
            var r := Fill(params, ParamDefaults(order, ids));
            && StrAt(r, "amount") == (if HasStr(params, "amount") then params["amount"].s else OrElse(StrAt(price, "value"), "0"))
            && StrAt(r, "currency")
               == (if HasStr(params, "currency") then params["currency"].s else OrElse(StrAt(price, "currency"), "INR"))
            && StrAt(r, "transaction_id")
               == (if HasStr(params, "transaction_id") then params["transaction_id"].s else ids.paymentTxnID)
  {
    var ds := ParamDefaults(order, ids);
    FirstOfAt(ds, 0);
    FirstOfAt(ds, 1);
    FirstOfAt(ds, 2);
    FillValue(params, ds, "amount");
    FillValue(params, ds, "currency");
    FillValue(params, ds, "transaction_id");
  }

  lemma PaymentEdited(p: Fields, order: Fields, ids: Supply)
    ensures Follows(PaymentEdit(), Obj(p), Obj(PaymentOf(p, ParamDefaults(order, ids))))
  {
    var r := PaymentOf(p, ParamDefaults(order, ids));
    forall k ensures KeyFollows(PaymentEdit().edits, p, r, k) && (k in p ==> k in r) {
      PaymentKeyEdited(p, order, ids, k);
    }
    IntoFollows(p, r, PaymentEdit().edits, {});
  }

  lemma PaymentKeyEdited(p: Fields, order: Fields, ids: Supply, k: string)
    ensures var r := PaymentOf(p, ParamDefaults(order, ids));
            KeyFollows(PaymentEdit().edits, p, r, k) && (k in p ==> k in r)
  {
    var ds := ParamDefaults(order, ids);
    PaymentKeys(p, ds, k);
    if k == "params" {
      ParamsFilled(ObjAt(p, "params"), order, ids);
      PutFollows(p, "params", Fill(ObjAt(p, "params"), ds), Into(Texts(PARAM_NAMES), {}));
    } else {
      NamesConcat(PAYMENT_FIRST, PAYMENT_LAST, k);
      TextsAre(PAYMENT_FIRST + PAYMENT_LAST, k);
    }
  }

  lemma PaymentStrings(p: Fields, ds: seq<(string, string)>)
    ensures var r := PaymentOf(p, ds);
            && HasStr(r, "uri") && HasStr(r, "tl_method") && HasStr(r, "status") && HasStr(r, "type") && HasStr(r, "collected_by")
            && HasObj(r, "params") && r["params"].fields == Fill(ObjAt(p, "params"), ds)
  {
    ParamsNotNamed();
    assert PAYMENT_FIRST[0].0 == "uri" && PAYMENT_FIRST[1].0 == "tl_method";
    assert PAYMENT_LAST[0].0 == "status" && PAYMENT_LAST[1].0 == "type" && PAYMENT_LAST[2].0 == "collected_by";
    PaymentKeys(p, ds, "uri");
    PaymentKeys(p, ds, "tl_method");
    PaymentKeys(p, ds, "status");
    PaymentKeys(p, ds, "type");
    PaymentKeys(p, ds, "collected_by");
  }

  lemma PaymentFixed(p: Fields, order: Fields, ids: Supply)
    requires PaymentDone(p)
    ensures PaymentOf(p, ParamDefaults(order, ids)) == p
  {
    FillDone(p, PAYMENT_FIRST);
    FillDone(p["params"].fields, ParamDefaults(order, ids));
    PutSame(p, "params");
    FillDone(p, PAYMENT_LAST);
  }

  /** The order's own fields after the first half of the enrichment. */
  function Stamped(order: Fields, txnID: string, ids: Supply): Fields {
    Fill(ConfirmState(ConfirmID(order, txnID, ids)), [("created_at", ids.now), ("updated_at", ids.now)])
  }

  lemma StampedMeaning(order: Fields, txnID: string, ids: Supply, k: string)
    ensures var r := Stamped(order, txnID, ids);
            && StrAt(r, "id") == OrElse(StrAt(order, "id"), OrElse(txnID, ids.orderID))
            && StrAt(r, "state") == (if AllowedState(StrAt(order, "state")) then StrAt(order, "state") else "Created")
            && HasStr(r, "created_at") && HasStr(r, "updated_at")
            && (k in order ==> k in r)
            && (k == "created_at" || k == "updated_at" ==> (k in order ==> Follows(Text, order[k], r[k])))
            && (k != "id" && k != "state" && k != "created_at" && k != "updated_at" ==> SameAt(order, r, k))
  {
    var ds := [("created_at", ids.now), ("updated_at", ids.now)];
    var o := ConfirmState(ConfirmID(order, txnID, ids));
    assert ds[0].0 == "created_at" && ds[1].0 == "updated_at";
    FillMeaning(o, ds, "id");
    FillMeaning(o, ds, "state");
    FillMeaning(o, ds, "created_at");
    FillMeaning(o, ds, "updated_at");
    FillMeaning(o, ds, k);
  }

  lemma PaymentInOrder(order: Fields, ids: Supply)
    ensures ConfirmPayment(order, ids) == order["payment" := Obj(PaymentOf(ObjAt(order, "payment"), ParamDefaults(order, ids)))]
  {
  }

  lemma ConfirmKeys()
    ensures "fulfillments" != "payment" && "id" != "payment" && "state" != "payment"
    ensures "created_at" != "payment" && "updated_at" != "payment"
    ensures "id" != "fulfillments" && "state" != "fulfillments"
    ensures "created_at" != "fulfillments" && "updated_at" != "fulfillments"
  {
  }

  /** The second half of the enrichment edits the fulfillments and the payment and leaves every other key alone. */
  lemma SecondHalf(o: Fields, ids: Supply)
    ensures var r := ConfirmPayment(ConfirmFulfillments(o), ids);
            && (forall k | k != "fulfillments" && k != "payment" :: SameAt(o, r, k))
            && (!HasArr(o, "fulfillments") ==> SameAt(o, r, "fulfillments"))
  {
    ConfirmKeys();
    PaymentInOrder(ConfirmFulfillments(o), ids);
  }

  lemma SecondHalfPayment(o: Fields, ids: Supply)
    ensures var r := ConfirmPayment(ConfirmFulfillments(o), ids);
            && HasObj(r, "payment") && PaymentDone(r["payment"].fields)
            && Follows(PaymentEdit(), Obj(ObjAt(o, "payment")), r["payment"])
  {
    ConfirmKeys();
    var o2 := ConfirmFulfillments(o);
    PaymentInOrder(o2, ids);
    assert ObjAt(o2, "payment") == ObjAt(o, "payment");
    PaymentCompleted(ObjAt(o, "payment"), o2, ids);
  }

  lemma SecondHalfPersons(o: Fields, ids: Supply)
    ensures PersonsComplete(o, ConfirmPayment(ConfirmFulfillments(o), ids))
  {
    ConfirmKeys();
    PaymentInOrder(ConfirmFulfillments(o), ids);
    if HasArr(o, "fulfillments") {
      var fs, name := o["fulfillments"].elems, PersonName(o);
      forall i | 0 <= i < |fs| ensures PersonCompletes(fs[i], EachConfirm(fs, name)[i]) {
        PersonCompleted(fs[i], name);
      }
    }
  }

  lemma PersonsEdited(before: Fields, after: Fields)
    requires PersonsComplete(before, after) && HasArr(before, "fulfillments")
    ensures Follows(Each(PersonEdit()), before["fulfillments"], after["fulfillments"])
    ensures forall i | 0 <= i < |after["fulfillments"].elems| :: PersonDone(after["fulfillments"].elems[i])
  {
    var xs, ys := before["fulfillments"].elems, after["fulfillments"].elems;
    forall i | 0 <= i < |xs|
      ensures PersonDone(ys[i]) && (if xs[i].Obj? then ys[i].Obj? && Follows(PersonEdit(), xs[i], ys[i]) else xs[i] == ys[i])
    {
      assert PersonCompletes(xs[i], ys[i]);
    }
  }

  lemma ConfirmOrderCompleted(order: Fields, txnID: string, ids: Supply)
    ensures ConfirmOrderDone(EnrichConfirmOrder(order, txnID, ids))
  {
    var s, r := Stamped(order, txnID, ids), EnrichConfirmOrder(order, txnID, ids);
    ConfirmScalars(order, txnID, ids);
    SecondHalfPayment(s, ids);
    SecondHalfPersons(s, ids);
    if HasArr(r, "fulfillments") {
      PersonsEdited(s, r);
    }
  }

  lemma ConfirmScalars(order: Fields, txnID: string, ids: Supply)
    ensures var r := EnrichConfirmOrder(order, txnID, ids);
            && StrAt(r, "id") != "" && AllowedState(StrAt(r, "state"))
            && HasStr(r, "created_at") && HasStr(r, "updated_at")
  {
    ConfirmKeys();
    StampedMeaning(order, txnID, ids, "id");
    var s, r := Stamped(order, txnID, ids), EnrichConfirmOrder(order, txnID, ids);
    SecondHalf(s, ids);
    assert SameAt(s, r, "id") && SameAt(s, r, "state") && SameAt(s, r, "created_at") && SameAt(s, r, "updated_at");
  }

  lemma ConfirmPersonsComplete(order: Fields, txnID: string, ids: Supply)
    ensures PersonsComplete(order, EnrichConfirmOrder(order, txnID, ids))
  {
    ConfirmKeys();
    StampedMeaning(order, txnID, ids, "fulfillments");
    SecondHalfPersons(Stamped(order, txnID, ids), ids);
  }

  lemma ConfirmOrderEdited(order: Fields, txnID: string, ids: Supply)
    ensures Follows(ConfirmEdit(), Obj(order), Obj(EnrichConfirmOrder(order, txnID, ids)))
  {
    var r := EnrichConfirmOrder(order, txnID, ids);
    forall k ensures KeyFollows(ConfirmEdit().edits, order, r, k) && (k in order ==> k in r) {
      ConfirmKeyEdited(order, txnID, ids, k);
    }
    IntoFollows(order, r, ConfirmEdit().edits, {});
  }

  lemma ConfirmEdits()
    ensures var e := ConfirmEdit().edits;
            e.Keys == {"id", "state", "created_at", "updated_at", "fulfillments", "payment"}
            && e["id"] == e["state"] == Free && e["created_at"] == e["updated_at"] == Text
            && e["fulfillments"] == Each(PersonEdit()) && e["payment"] == PaymentEdit()
  {
    ConfirmKeys();
  }

  lemma ConfirmKeyEdited(order: Fields, txnID: string, ids: Supply, k: string)
    ensures var r := EnrichConfirmOrder(order, txnID, ids);
            KeyFollows(ConfirmEdit().edits, order, r, k) && (k in order ==> k in r)
  {
    var s, r := Stamped(order, txnID, ids), EnrichConfirmOrder(order, txnID, ids);
    ConfirmEdits();
    StampedMeaning(order, txnID, ids, k);
    if k == "payment" {
      ConfirmPaymentEdited(order, txnID, ids);
    } else if k == "fulfillments" {
      ConfirmPersonsEdited(order, txnID, ids);
    } else {
      SecondHalf(s, ids);
    }
  }

  lemma ConfirmPaymentEdited(order: Fields, txnID: string, ids: Supply)
    ensures var r := EnrichConfirmOrder(order, txnID, ids);
            HasObj(r, "payment") && MayPut(order, "payment", r["payment"], PaymentEdit())
  {
    var s, r := Stamped(order, txnID, ids), EnrichConfirmOrder(order, txnID, ids);
    ConfirmKeys();
    SecondHalfPayment(s, ids);
    StampedMeaning(order, txnID, ids, "payment");
    PutFollows(s, "payment", r["payment"].fields, PaymentEdit());
  }

  lemma ConfirmPersonsEdited(order: Fields, txnID: string, ids: Supply)
    ensures var r, k := EnrichConfirmOrder(order, txnID, ids), "fulfillments";
            (k in r <==> k in order) && (k in order ==> Follows(Each(PersonEdit()), order[k], r[k]))
  {
    var s, r := Stamped(order, txnID, ids), EnrichConfirmOrder(order, txnID, ids);
    ConfirmKeys();
    StampedMeaning(order, txnID, ids, "fulfillments");
    if HasArr(s, "fulfillments") {
      SecondHalfPersons(s, ids);
      PersonsEdited(s, r);
    } else {
      SecondHalf(s, ids);
    }
  }

  lemma ConfirmOrderFixed(order: Fields, txnID: string, ids: Supply)
    requires ConfirmOrderDone(order)
    ensures EnrichConfirmOrder(order, txnID, ids) == order
  {
    FillDone(order, [("created_at", ids.now), ("updated_at", ids.now)]);
    assert Stamped(order, txnID, ids) == order;
    if HasArr(order, "fulfillments") {
      var fs := order["fulfillments"].elems;
      forall i | 0 <= i < |fs| ensures EachConfirm(fs, PersonName(order))[i] == fs[i] {
        PersonFixed(fs[i], PersonName(order));
      }
      assert EachConfirm(fs, PersonName(order)) == fs;
      PutSame(order, "fulfillments");
    }
    PaymentInOrder(order, ids);
    PaymentFixed(order["payment"].fields, order, ids);
    PutSame(order, "payment");
  }

  /** Enriching a confirm leaves nothing missing: fulfillments stay an array of the same length, and each element of
      the result completes the element of the callback at its place. Enriching changes nothing exactly when nothing
      was missing. */
  lemma ConfirmCompletes(full: Fields, ids: Supply)
    ensures ConfirmDone(EnrichConfirm(full, ids))
    ensures PersonsComplete(OrderOf(full), OrderOf(EnrichConfirm(full, ids)))
    ensures EnrichConfirm(full, ids) == full <==> ConfirmDone(full)
  {
    var txnID := StrAt(ObjAt(full, "context"), "transaction_id");
    ConfirmOrderCompleted(OrderOf(full), txnID, ids);
    ConfirmPersonsComplete(OrderOf(full), txnID, ids);
    WithOrderMeaning(full, EnrichConfirmOrder(OrderOf(full), txnID, ids));
    if ConfirmDone(full) {
      ConfirmOrderFixed(OrderOf(full), txnID, ids);
      WithOrderSame(full);
    }
  }

  lemma ConfirmIdempotent(full: Fields, ids: Supply, ids': Supply)
    ensures EnrichConfirm(EnrichConfirm(full, ids), ids') == EnrichConfirm(full, ids)
  {
    ConfirmCompletes(full, ids);
    ConfirmCompletes(EnrichConfirm(full, ids), ids');
  }

  /** An enriched confirm is the callback but for the edits of `ConfirmEdit`: all other values are as they were, at
      every depth. The order's id stays when it is a non-empty string and is otherwise the transaction id, or a new
      one where there is none; its state stays when it is allowed and becomes Created otherwise; items and
      fulfillments stay arrays of the same length. */
  lemma ConfirmKeeps(full: Fields, ids: Supply)
    ensures Follows(RequestEdit(ConfirmEdit()), Obj(full), Obj(EnrichConfirm(full, ids)))
    ensures SameArray(OrderOf(full), OrderOf(EnrichConfirm(full, ids)), "items")
    ensures SameArray(OrderOf(full), OrderOf(EnrichConfirm(full, ids)), "fulfillments")
    ensures var before, after := OrderOf(full), OrderOf(EnrichConfirm(full, ids));
            var txnID := StrAt(ObjAt(full, "context"), "transaction_id");
            && StrAt(after, "id") == OrElse(StrAt(before, "id"), OrElse(txnID, ids.orderID))
            && StrAt(after, "state") == if AllowedState(StrAt(before, "state")) then StrAt(before, "state") else "Created"
  {
    var order, txnID := OrderOf(full), StrAt(ObjAt(full, "context"), "transaction_id");
    var e := EnrichConfirmOrder(order, txnID, ids);
    WithOrderMeaning(full, e);
    ConfirmOrderEdited(order, txnID, ids);
    RequestEdited(full, e, ConfirmEdit());
    ConfirmOrderStamps(order, txnID, ids);
    ConfirmPersonsComplete(order, txnID, ids);
  }

  lemma ConfirmOrderStamps(order: Fields, txnID: string, ids: Supply)
    ensures var e := EnrichConfirmOrder(order, txnID, ids);
            && StrAt(e, "id") == OrElse(StrAt(order, "id"), OrElse(txnID, ids.orderID))
            && StrAt(e, "state") == (if AllowedState(StrAt(order, "state")) then StrAt(order, "state") else "Created")
            && SameAt(order, e, "items")
  {
    ConfirmKeys();
    assert "items" != "state" && "items" != "payment" by {
      assert "items"[0] == 'i' && "state"[0] == 's';
    }
    StampedMeaning(order, txnID, ids, "items");
    SecondHalf(Stamped(order, txnID, ids), ids);
  }
}
