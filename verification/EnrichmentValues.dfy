/** The values the init and confirm enrichments put where something was missing, read off whole requests. */
module EnrichmentValues {
  import opened Enrichment
  import opened EnrichmentLaws
  import opened Json
  import opened Wrappers

  // ---------------------------------------------------------------- init

  /** An element of an array of the order, before and after. */
  function ElementAt(order: Fields, k: string, i: nat): Json
    requires HasArr(order, k) && i < |order[k].elems|
  {
    order[k].elems[i]
  }

  predicate HasElement(order: Fields, k: string, i: nat) {
    HasArr(order, k) && i < |order[k].elems| && order[k].elems[i].Obj?
  }

  /** The string under a key, or what stands in for it. */
  function TextOr(m: Fields, k: string, other: string): string {
    if HasStr(m, k) then m[k].s else other
  }

  lemma InitElement(full: Fields, sel: Selected, now: string, i: nat)
    requires HasElement(OrderOf(full), "fulfillments", i)
    ensures var order, r := OrderOf(full), OrderOf(EnrichInit(full, sel, now));
            var offer := Offer(DomainOf(full), sel.gps, sel.areaCode, ObjAt(ObjAt(r, "billing"), "address"));
            HasArr(r, "fulfillments") && |r["fulfillments"].elems| == |order["fulfillments"].elems|
            && ElementAt(r, "fulfillments", i) == EnrichFulfillment(ElementAt(order, "fulfillments", i), offer)
  {
    var order := OrderOf(full);
    InitOrderParts(full, order, sel, now);
    WithOrderMeaning(full, EnrichInitOrder(full, order, sel, now));
    OrderKeys();
    BillingKept(order, now);
  }

  lemma BillingKept(order: Fields, now: string)
    ensures var o := EnrichBilling(EnrichItems(order), now);
            HasObj(o, "billing") && (HasObj(order, "billing") ==> o["billing"] == order["billing"])
            && (!HasObj(order, "billing") ==> o["billing"] == DefaultBilling(now))
  {
    OrderKeys();
  }

  lemma EndOf(f: Json, o: Offer)
    requires f.Obj?
    ensures EnrichFulfillment(f, o).Obj? && ObjAt(EnrichFulfillment(f, o).fields, "end") == EnrichEnd(ObjAt(f.fields, "end"), o)
    ensures o.domain == "ONDC:RET13" ==> CATEGORY !in EnrichFulfillment(f, o).fields
  {
    EndIsNotCategory();
  }

  /** Each object fulfillment of an enriched init has the gps and area code it had, or those of the stored select
      request, or the defaults; and the phone it had, or the default. */
  lemma InitFulfillmentValues(full: Fields, sel: Selected, now: string, i: nat)
    requires HasElement(OrderOf(full), "fulfillments", i)
    ensures var r := OrderOf(EnrichInit(full, sel, now));
            && HasElement(r, "fulfillments", i)
            && var end, end' := ObjAt(ElementAt(OrderOf(full), "fulfillments", i).fields, "end"), ObjAt(ElementAt(r, "fulfillments", i).fields, "end");
               var loc, loc' := ObjAt(end, "location"), ObjAt(end', "location");
               && StrAt(loc', "gps") == TextOr(loc, "gps", OrElse(sel.gps, "12.9716,77.5946"))
               && StrAt(ObjAt(loc', "address"), "area_code") == TextOr(ObjAt(loc, "address"), "area_code", OrElse(sel.areaCode, "560001"))
               && StrAt(ObjAt(end', "contact"), "phone") == TextOr(ObjAt(end, "contact"), "phone", "9999999999")
  {
    var r := OrderOf(EnrichInit(full, sel, now));
    var offer := Offer(DomainOf(full), sel.gps, sel.areaCode, ObjAt(ObjAt(r, "billing"), "address"));
    InitElement(full, sel, now, i);
    EndOf(ElementAt(OrderOf(full), "fulfillments", i), offer);
    EndValues(ObjAt(ElementAt(OrderOf(full), "fulfillments", i).fields, "end"), offer);
  }

  /** The test buyer's address. */
  const TEST_ADDRESS := [("name", "Test Buyer"), ("building", "Test Building"), ("locality", "MG Road"), ("city", "Bengaluru"),
                         ("state", "KA"), ("country", "IND"), ("area_code", "560001")]

  /** And its address fields are those it had, or those of the order's billing address, or the test buyer's. */
  lemma InitAddressValues(full: Fields, sel: Selected, now: string, i: nat, j: nat)
    requires HasElement(OrderOf(full), "fulfillments", i) && j < 6
    ensures var r, k := OrderOf(EnrichInit(full, sel, now)), TEST_ADDRESS[j].0;
            && HasElement(r, "fulfillments", i)
            && var end, end' := ObjAt(ElementAt(OrderOf(full), "fulfillments", i).fields, "end"), ObjAt(ElementAt(r, "fulfillments", i).fields, "end");
               StrAt(ObjAt(ObjAt(end', "location"), "address"), k)
               == TextOr(ObjAt(ObjAt(end, "location"), "address"), k,
                         OrElse(StrAt(ObjAt(ObjAt(r, "billing"), "address"), k), TEST_ADDRESS[j].1))
  {
    var r := OrderOf(EnrichInit(full, sel, now));
    var offer := Offer(DomainOf(full), sel.gps, sel.areaCode, ObjAt(ObjAt(r, "billing"), "address"));
    var end := ObjAt(ElementAt(OrderOf(full), "fulfillments", i).fields, "end");
    assert ADDRESS_DEFAULTS == TEST_ADDRESS[..6];
    InitElement(full, sel, now, i);
    EndOf(ElementAt(OrderOf(full), "fulfillments", i), offer);
    EndParts(end, offer);
    LocationParts(ObjAt(end, "location"), offer);
    AddressValue(ObjAt(ObjAt(end, "location"), "address"), offer, j);
  }

  /** In domain RET13 no object fulfillment has a category afterwards; elsewhere each has the one it had. */
  lemma InitCategory(full: Fields, sel: Selected, now: string, i: nat)
    requires HasElement(OrderOf(full), "fulfillments", i)
    ensures var r := OrderOf(EnrichInit(full, sel, now));
            && HasElement(r, "fulfillments", i)
            && var f, f' := ElementAt(OrderOf(full), "fulfillments", i).fields, ElementAt(r, "fulfillments", i).fields;
               if StrAt(ObjAt(full, "context"), "domain") == "ONDC:RET13" then "@ondc/org/category" !in f'
               else SameAt(f, f', "@ondc/org/category")
  {
    var r := OrderOf(EnrichInit(full, sel, now));
    InitElement(full, sel, now, i);
    EndIsNotCategory();
  }

  /** An order without a billing object gets the test buyer's, stamped with the time. */
  lemma InitBillingValue(full: Fields, sel: Selected, now: string)
    requires !HasObj(OrderOf(full), "billing")
    ensures var b := ObjAt(OrderOf(EnrichInit(full, sel, now)), "billing");
            && StrAt(b, "name") == "Test Buyer" && StrAt(b, "phone") == "9999999999" && StrAt(b, "email") == "test@example.com"
            && StrAt(b, "created_at") == now && StrAt(b, "updated_at") == now
            && forall i | 0 <= i < |TEST_ADDRESS| :: StrAt(ObjAt(b, "address"), TEST_ADDRESS[i].0) == TEST_ADDRESS[i].1
  {
    var order := OrderOf(full);
    InitOrderParts(full, order, sel, now);
    WithOrderMeaning(full, EnrichInitOrder(full, order, sel, now));
    InitBillingIs(full, order, sel, now);
    BillingFields(now);
  }

  lemma InitBillingIs(full: Fields, order: Fields, sel: Selected, now: string)
    requires !HasObj(order, "billing")
    ensures var r := EnrichInitOrder(full, order, sel, now); "billing" in r && r["billing"] == DefaultBilling(now)
  {
    OrderKeys();
    BillingKept(order, now);
  }

  lemma BillingFields(now: string)
    ensures var b := DefaultBilling(now).fields;
            && StrAt(b, "name") == "Test Buyer" && StrAt(b, "phone") == "9999999999" && StrAt(b, "email") == "test@example.com"
            && StrAt(b, "created_at") == now && StrAt(b, "updated_at") == now
            && forall i | 0 <= i < |TEST_ADDRESS| :: StrAt(ObjAt(b, "address"), TEST_ADDRESS[i].0) == TEST_ADDRESS[i].1
  {
    var ds := [("name", "Test Buyer"), ("phone", "9999999999"), ("email", "test@example.com"), ("created_at", now), ("updated_at", now)];
    BillingNamesDiffer();
    FilledText(Obj(Fill(map[], DEFAULT_BILLING_ADDRESS)), ds, 0);
    FilledText(Obj(Fill(map[], DEFAULT_BILLING_ADDRESS)), ds, 1);
    FilledText(Obj(Fill(map[], DEFAULT_BILLING_ADDRESS)), ds, 2);
    FilledText(Obj(Fill(map[], DEFAULT_BILLING_ADDRESS)), ds, 3);
    FilledText(Obj(Fill(map[], DEFAULT_BILLING_ADDRESS)), ds, 4);
    FilledAddress(Obj(Fill(map[], DEFAULT_BILLING_ADDRESS)), ds);
    forall i | 0 <= i < |TEST_ADDRESS|
      ensures StrAt(Fill(map[], DEFAULT_BILLING_ADDRESS), TEST_ADDRESS[i].0) == TEST_ADDRESS[i].1
    {
      BillingAddress(i);
    }
  }

  lemma FilledText(address: Json, ds: seq<(string, string)>, i: nat)
    requires i < |ds| && ds[i].0 != "address" && forall j | 0 <= j < i :: ds[j].0 != ds[i].0
    ensures StrAt(Fill(map["address" := address], ds), ds[i].0) == ds[i].1
  {
    var m: Fields := map["address" := address];
    FirstOfAt(ds, i);
    FillValue(m, ds, ds[i].0);
  }

  lemma FilledAddress(address: Json, ds: seq<(string, string)>)
    requires address.Obj? && !Names(ds, "address")
    ensures ObjAt(Fill(map["address" := address], ds), "address") == address.fields
  {
    FillMeaning(map["address" := address], ds, "address");
  }

  lemma BillingNamesDiffer()
    ensures "phone" != "email" && "created_at" != "updated_at"
  {
    assert "phone"[0] == 'p' && "email"[0] == 'e' && "created_at"[0] == 'c' && "updated_at"[0] == 'u';
  }

  lemma BillingAddress(i: nat)
    requires i < |TEST_ADDRESS|
    ensures StrAt(Fill(map[], DEFAULT_BILLING_ADDRESS), TEST_ADDRESS[i].0) == TEST_ADDRESS[i].1
  {
    assert DEFAULT_BILLING_ADDRESS == TEST_ADDRESS;
    AddressNamesDiffer();
    FirstOfAt(TEST_ADDRESS, i);
    FillValue(map[], TEST_ADDRESS, TEST_ADDRESS[i].0);
  }

  /** The breakup of the order's quote. */
  function Breakup(order: Fields): seq<Json> {
    var quote := ObjAt(order, "quote");
    if HasArr(quote, "breakup") then quote["breakup"].elems else []
  }

  /** The quantity a breakup line offers, in whole units. */
  function Offered(b: Json, id: string): int
    requires Offers(b, id)
  {
    b.fields["@ondc/org/item_quantity"].fields["count"].n.Floor
  }

  /** An item with an id and without a count gets the quantity of the last breakup line that offers one, when that is a
      whole unit or more, and one otherwise. */
  lemma InitItemCount(full: Fields, sel: Selected, now: string, i: nat, j: int)
    requires HasElement(OrderOf(full), "items", i)
    requires var it := ElementAt(OrderOf(full), "items", i).fields; StrAt(it, "id") != "" && "count" !in ObjAt(it, "quantity")
    requires var id, bs := StrAt(ElementAt(OrderOf(full), "items", i).fields, "id"), Breakup(OrderOf(full));
             if 0 <= j < |bs| then Offers(bs[j], id) && forall h | j < h < |bs| :: !Offers(bs[h], id)
             else forall h | 0 <= h < |bs| :: !Offers(bs[h], id)
    ensures var r, bs := OrderOf(EnrichInit(full, sel, now)), Breakup(OrderOf(full));
            var id := StrAt(ElementAt(OrderOf(full), "items", i).fields, "id");
            && HasElement(r, "items", i)
            && var q := ObjAt(ElementAt(r, "items", i).fields, "quantity");
               "count" in q && q["count"] == Num((if 0 <= j < |bs| && Offered(bs[j], id) > 0 then Offered(bs[j], id) else 1) as real)
  {
    var order := OrderOf(full);
    var it := ElementAt(order, "items", i);
    InitOrderParts(full, order, sel, now);
    WithOrderMeaning(full, EnrichInitOrder(full, order, sel, now));
    ItemCompleted(it, ItemCounts(order));
    CountsMeaning(Breakup(order), StrAt(it.fields, "id"));
    assert ItemCounts(order) == CountsOf(Breakup(order)) by {
      if !HasArr(ObjAt(order, "quote"), "breakup") {
        assert CountsOf([]) == map[];
      }
    }
  }

  // ---------------------------------------------------------------- the stored select request

  /** An object under a key, or nothing. */
  predicate ObjOrNone(m: Fields, k: string) {
    k !in m || m[k].Null? || m[k].Obj?
  }

  predicate TextOrNone(m: Fields, k: string) {
    k !in m || m[k].Null? || m[k].Str?
  }

  function LocationIn(f: Json): Fields {
    if f.Obj? then ObjAt(ObjAt(f.fields, "end"), "location") else map[]
  }

  /** A fulfillment whose end, location, gps, address and area code have the types the decoder expects, or are missing. */
  predicate WellTyped(f: Json) {
    var loc := LocationIn(f);
    && (f.Null? || (f.Obj? && ObjOrNone(f.fields, "end") && ObjOrNone(ObjAt(f.fields, "end"), "location")))
    && TextOrNone(loc, "gps") && ObjOrNone(loc, "address") && TextOrNone(ObjAt(loc, "address"), "area_code")
  }

  /** Exactly the well-typed fulfillments are decoded, and offer their gps and area code. */
  lemma SelectedInExactly(f: Json)
    ensures SelectedIn(f).Some? <==> WellTyped(f)
    ensures WellTyped(f) ==>
              SelectedIn(f).value == Selected(StrAt(LocationIn(f), "gps"), StrAt(ObjAt(LocationIn(f), "address"), "area_code"))
  {
  }

  /** The fulfillments a stored select request lists, when it is well typed down to them. */
  function Listed(j: Json): seq<Json> {
    var message := if j.Obj? then ObjAt(j.fields, "message") else map[];
    var order := ObjAt(message, "order");
    if j.Obj? && ObjOrNone(j.fields, "message") && ObjOrNone(message, "order") && HasArr(order, "fulfillments")
    then order["fulfillments"].elems else []
  }

  /** A stored select request offers the gps and area code of the first fulfillment it lists, when all of them are well
      typed, and nothing when one is not or none is listed. */
  lemma SelectedExactly(j: Json)
    ensures SelectedOf(Some(Tree(j)))
         == if Listed(j) != [] && forall f | f in Listed(j) :: WellTyped(f)
            then Selected(StrAt(LocationIn(Listed(j)[0]), "gps"), StrAt(ObjAt(LocationIn(Listed(j)[0]), "address"), "area_code"))
            else Selected("", "")
  {
    var fs := Listed(j);
    ListedIsDecoded(j);
    AllSelectedMeaning(fs);
    forall f ensures SelectedIn(f).Some? <==> WellTyped(f) {
      SelectedInExactly(f);
    }
    if fs != [] {
      SelectedInExactly(fs[0]);
    }
  }

  lemma ListedIsDecoded(j: Json)
    ensures Listed(j) != [] ==> DecodeSelect(j) == AllSelected(Listed(j))
    ensures Listed(j) == [] ==> DecodeSelect(j).None? || DecodeSelect(j) == Some([])
  {
  }

  /** A missing or malformed select request offers nothing. */
  lemma NothingOffered()
    ensures SelectedOf(None) == SelectedOf(Some(Malformed)) == Selected("", "")
  {
  }

  // ---------------------------------------------------------------- confirm

  /** Each object fulfillment of an enriched confirm has the person name it had, or the billing's, or the default; and
      the turn-around time it had, or two days. */
  lemma ConfirmFulfillmentValues(full: Fields, ids: Supply, i: nat)
    requires HasElement(OrderOf(full), "fulfillments", i)
    ensures var order, r := OrderOf(full), OrderOf(EnrichConfirm(full, ids));
            && HasElement(r, "fulfillments", i)
            && var f, f' := ElementAt(order, "fulfillments", i).fields, ElementAt(r, "fulfillments", i).fields;
               && StrAt(ObjAt(ObjAt(f', "end"), "person"), "name")
                  == TextOr(ObjAt(ObjAt(f, "end"), "person"), "name", OrElse(StrAt(ObjAt(order, "billing"), "name"), "Test Buyer"))
               && StrAt(f', "@ondc/org/TAT") == TextOr(f, "@ondc/org/TAT", "P2D")
  {
    var order, txnID := OrderOf(full), StrAt(ObjAt(full, "context"), "transaction_id");
    WithOrderMeaning(full, EnrichConfirmOrder(order, txnID, ids));
    ConfirmElement(order, txnID, ids, i);
    ConfirmFulfillmentText(ElementAt(order, "fulfillments", i), OrElse(StrAt(ObjAt(order, "billing"), "name"), "Test Buyer"));
  }

  lemma ConfirmElement(order: Fields, txnID: string, ids: Supply, i: nat)
    requires HasElement(order, "fulfillments", i)
    ensures var r := EnrichConfirmOrder(order, txnID, ids);
            HasArr(r, "fulfillments") && i < |r["fulfillments"].elems|
            && ElementAt(r, "fulfillments", i)
               == ConfirmFulfillment(ElementAt(order, "fulfillments", i), OrElse(StrAt(ObjAt(order, "billing"), "name"), "Test Buyer"))
  {
    var s := Stamped(order, txnID, ids);
    ConfirmKeys();
    StampedMeaning(order, txnID, ids, "fulfillments");
    StampedMeaning(order, txnID, ids, "billing");
    PaymentInOrder(ConfirmFulfillments(s), ids);
  }

  lemma ConfirmFulfillmentText(f: Json, name: string)
    requires f.Obj?
    ensures var r := ConfirmFulfillment(f, name);
            && r.Obj? && StrAt(ObjAt(ObjAt(r.fields, "end"), "person"), "name") == TextOr(ObjAt(ObjAt(f.fields, "end"), "person"), "name", name)
            && StrAt(r.fields, TAT) == TextOr(f.fields, TAT, "P2D")
  {
    EndIsNotCategory();
  }

  /** The state of an enriched confirm is the one it had if that is Created, Accepted or Cancelled, and else Created; its
      id the one it had, or the transaction's, or a new one. */
  lemma ConfirmStateAndID(full: Fields, ids: Supply)
    ensures var order, r := OrderOf(full), OrderOf(EnrichConfirm(full, ids));
            && StrAt(r, "state") == (if StrAt(order, "state") in {"Created", "Accepted", "Cancelled"} then StrAt(order, "state") else "Created")
            && StrAt(r, "id") == OrElse(StrAt(order, "id"), OrElse(StrAt(ObjAt(full, "context"), "transaction_id"), ids.orderID))
  {
    ConfirmKeeps(full, ids);
  }

  /** The times of an enriched confirm are those it had, or the clock's. */
  lemma ConfirmTimes(full: Fields, ids: Supply)
    ensures var order, r := OrderOf(full), OrderOf(EnrichConfirm(full, ids));
            StrAt(r, "created_at") == TextOr(order, "created_at", ids.now) && StrAt(r, "updated_at") == TextOr(order, "updated_at", ids.now)
  {
    var order, txnID := OrderOf(full), StrAt(ObjAt(full, "context"), "transaction_id");
    WithOrderMeaning(full, EnrichConfirmOrder(order, txnID, ids));
    StampedTimes(order, txnID, ids);
    ConfirmKeys();
    SecondHalf(Stamped(order, txnID, ids), ids);
    assert SameAt(Stamped(order, txnID, ids), EnrichConfirmOrder(order, txnID, ids), "created_at");
    assert SameAt(Stamped(order, txnID, ids), EnrichConfirmOrder(order, txnID, ids), "updated_at");
  }

  lemma StampedTimes(order: Fields, txnID: string, ids: Supply)
    ensures var s := Stamped(order, txnID, ids);
            StrAt(s, "created_at") == TextOr(order, "created_at", ids.now) && StrAt(s, "updated_at") == TextOr(order, "updated_at", ids.now)
  {
    var ds := [("created_at", ids.now), ("updated_at", ids.now)];
    var o := ConfirmState(ConfirmID(order, txnID, ids));
    BillingNamesDiffer();
    FirstOfAt(ds, 0);
    FirstOfAt(ds, 1);
    FillValue(o, ds, "created_at");
    FillValue(o, ds, "updated_at");
  }

  /** The payment of an enriched confirm: what it had, or the defaults; its params what they had, or what the order's
      quote says, or the defaults. */
  lemma ConfirmPaymentValues(full: Fields, ids: Supply)
    ensures var order := OrderOf(full);
            var p, p' := ObjAt(order, "payment"), ObjAt(OrderOf(EnrichConfirm(full, ids)), "payment");
            var params, params' := ObjAt(p, "params"), ObjAt(p', "params");
            var price := ObjAt(ObjAt(order, "quote"), "price");
            && StrAt(p', "uri") == TextOr(p, "uri", "https://example.com/payment")
            && StrAt(p', "tl_method") == TextOr(p, "tl_method", "http/get") && StrAt(p', "status") == TextOr(p, "status", "PAID")
            && StrAt(p', "type") == TextOr(p, "type", "ON-ORDER") && StrAt(p', "collected_by") == TextOr(p, "collected_by", "BAP")
            && StrAt(params', "amount") == TextOr(params, "amount", OrElse(StrAt(price, "value"), "0"))
            && StrAt(params', "currency") == TextOr(params, "currency", OrElse(StrAt(price, "currency"), "INR"))
            && StrAt(params', "transaction_id") == TextOr(params, "transaction_id", ids.paymentTxnID)
  {
    var order, txnID := OrderOf(full), StrAt(ObjAt(full, "context"), "transaction_id");
    WithOrderMeaning(full, EnrichConfirmOrder(order, txnID, ids));
    ConfirmPaymentIs(order, txnID, ids);
    PaymentTexts(ObjAt(order, "payment"), ParamDefaults(order, ids));
    PaymentKeys(ObjAt(order, "payment"), ParamDefaults(order, ids), "uri");
    ParamValues(ObjAt(ObjAt(order, "payment"), "params"), order, ids);
  }

  lemma ConfirmPaymentIs(order: Fields, txnID: string, ids: Supply)
    ensures ObjAt(EnrichConfirmOrder(order, txnID, ids), "payment") == PaymentOf(ObjAt(order, "payment"), ParamDefaults(order, ids))
  {
    var s := Stamped(order, txnID, ids);
    ConfirmKeys();
    QuoteIsNotState();
    StampedMeaning(order, txnID, ids, "payment");
    StampedMeaning(order, txnID, ids, "quote");
    PaymentInOrder(ConfirmFulfillments(s), ids);
    assert ParamDefaults(ConfirmFulfillments(s), ids) == ParamDefaults(order, ids);
  }

  lemma QuoteIsNotState()
    ensures "quote" != "state" && "quote" != "fulfillments" && "quote" != "payment"
  {
    assert "quote"[0] == 'q' && "state"[0] == 's';
  }

  lemma PaymentTexts(p: Fields, ds: seq<(string, string)>)
    ensures var r := PaymentOf(p, ds);
            && StrAt(r, "uri") == TextOr(p, "uri", "https://example.com/payment")
            && StrAt(r, "tl_method") == TextOr(p, "tl_method", "http/get") && StrAt(r, "status") == TextOr(p, "status", "PAID")
            && StrAt(r, "type") == TextOr(p, "type", "ON-ORDER") && StrAt(r, "collected_by") == TextOr(p, "collected_by", "BAP")
  {
    FirstOfAt(PAYMENT_FIRST, 0);
    FirstOfAt(PAYMENT_FIRST, 1);
    FirstOfAt(PAYMENT_LAST, 0);
    FirstOfAt(PAYMENT_LAST, 1);
    FirstOfAt(PAYMENT_LAST, 2);
    FirstText(p, ds, "uri");
    FirstText(p, ds, "tl_method");
    LastText(p, ds, "status");
    LastText(p, ds, "type");
    LastText(p, ds, "collected_by");
  }

  lemma FirstText(p: Fields, ds: seq<(string, string)>, k: string)
    requires k != "params" && Names(PAYMENT_FIRST, k) && !Names(PAYMENT_LAST, k)
    ensures StrAt(PaymentOf(p, ds), k) == TextOr(p, k, FirstOf(PAYMENT_FIRST, k))
  {
    var q := Fill(p, PAYMENT_FIRST);
    var q' := q["params" := Obj(Fill(ObjAt(q, "params"), ds))];
    FillValue(p, PAYMENT_FIRST, k);
    FillMeaning(p, PAYMENT_FIRST, k);
    FillMeaning(q', PAYMENT_LAST, k);
  }

  lemma LastText(p: Fields, ds: seq<(string, string)>, k: string)
    requires k != "params" && !Names(PAYMENT_FIRST, k) && Names(PAYMENT_LAST, k)
    ensures StrAt(PaymentOf(p, ds), k) == TextOr(p, k, FirstOf(PAYMENT_LAST, k))
  {
    var q := Fill(p, PAYMENT_FIRST);
    var q' := q["params" := Obj(Fill(ObjAt(q, "params"), ds))];
    FillMeaning(p, PAYMENT_FIRST, k);
    FillValue(q', PAYMENT_LAST, k);
  }
}
