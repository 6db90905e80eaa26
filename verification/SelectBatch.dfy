/** Distinct select orders made from the first provider of an on_search catalog. */
module SelectBatch {
  import opened Arith
  import opened Json

  datatype CatalogItem = CatalogItem(id: string, locationID: string, fulfillmentID: string, parentItemID: string)

  datatype CatalogFulfillment = CatalogFulfillment(id: string, kind: string)

  datatype Provider = Provider(id: string, fulfillments: seq<CatalogFulfillment>, locations: seq<string>, items: seq<CatalogItem>)

  /** What decoding an on_search body into the catalog view gives. */
  datatype Catalog = Unreadable | Catalog(providers: seq<Provider>)

  const MAX_ITEMS := 5

  /** The random draws of one order: how many items beyond the first, and a permutation of the item positions. */
  datatype Draw = Draw(extra: nat, perm: seq<nat>)

  predicate Distinct<T(==)>(s: seq<T>) {
    forall i, j | 0 <= i < j < |s| :: s[i] != s[j]
  }

  predicate ValidDraw(n: nat, d: Draw) {
    d.extra < Min(MAX_ITEMS, n) && |d.perm| == n && Distinct(d.perm) && forall i | 0 <= i < n :: d.perm[i] < n
  }

  // ---------------------------------------------------------------- what an item refers to

  /** The first non-empty fulfillment id of the provider. */
  function DefaultFulfillment(fs: seq<CatalogFulfillment>): string {
    if fs == [] then "" else OrElse(DefaultFulfillment(fs[..|fs| - 1]), fs[|fs| - 1].id)
  }

  /** The types the provider gives its fulfillments; a later one replaces an earlier one. */
  function Types(fs: seq<CatalogFulfillment>): map<string, string> {
    if fs == [] then map[]
    else
      var pre, f := Types(fs[..|fs| - 1]), fs[|fs| - 1];
      if f.id != "" && f.kind != "" then pre[f.id := f.kind] else pre
  }

  function FirstLocation(p: Provider): string {
    if p.locations != [] then p.locations[0] else ""
  }

  function LocationOf(p: Provider, it: CatalogItem): string {
    OrElse(FirstLocation(p), it.locationID)
  }

  function FulfillmentOf(p: Provider, it: CatalogItem): string {
    OrElse(it.fulfillmentID, DefaultFulfillment(p.fulfillments))
  }

  predicate ValidChoice(p: Provider, chosen: seq<nat>) {
    forall i | 0 <= i < |chosen| :: chosen[i] < |p.items|
  }

  /** The first non-empty location of the chosen items. */
  function ChosenLocation(p: Provider, chosen: seq<nat>): string
    requires ValidChoice(p, chosen)
  {
    if chosen == [] then ""
    else
      var n := |chosen| - 1;
      OrElse(ChosenLocation(p, chosen[..n]), LocationOf(p, p.items[chosen[n]]))
  }

  /** The fulfillments the chosen items need. */
  function Used(p: Provider, chosen: seq<nat>): set<string>
    requires ValidChoice(p, chosen)
  {
    set x | x in chosen && FulfillmentOf(p, p.items[x]) != "" :: FulfillmentOf(p, p.items[x])
  }

  // ---------------------------------------------------------------- the pieces of an order

  const ITEM_TAGS := Arr([Obj(map["code" := Str("type"), "list" := Arr([Obj(map["code" := Str("type"), "value" := Str("item")])])])])

  function ItemMap(p: Provider, it: CatalogItem): Fields {
    var m: Fields := map["id" := Str(it.id), "location_id" := Str(LocationOf(p, it)), "fulfillment_id" := Str(FulfillmentOf(p, it)),
                 "tags" := ITEM_TAGS, "quantity" := Obj(map["count" := Num(2.0)])];
    if it.parentItemID != "" then m["parent_item_id" := Str(it.parentItemID)] else m
  }

  function ItemMaps(p: Provider, chosen: seq<nat>): seq<Json>
    requires ValidChoice(p, chosen)
  {
    seq(|chosen|, i requires 0 <= i < |chosen| => Obj(ItemMap(p, p.items[chosen[i]])))
  }

  /** The first fulfillment of the template, when it is an object. */
  function FulfillmentTemplate(base: Fields): Fields {
    if HasArr(base, "fulfillments") && base["fulfillments"].elems != [] && base["fulfillments"].elems[0].Obj?
    then base["fulfillments"].elems[0].fields else map[]
  }

  function FulfillmentMap(p: Provider, base: Fields, id: string): Fields {
    var types := Types(p.fulfillments);
    FulfillmentTemplate(base)["id" := Str(id)]["type" := Str(if id in types then types[id] else "Delivery")]
  }

  function IDAt(e: Json): string {
    if e.Obj? then StrAt(e.fields, "id") else ""
  }

  function IDsAt(es: seq<Json>): seq<string> {
    seq(|es|, i requires 0 <= i < |es| => IDAt(es[i]))
  }

  /** One fulfillment per id of a set, each made from the template, in any order. */
  predicate Fulfills(p: Provider, base: Fields, ids: set<string>, es: seq<Json>) {
    && (forall e | e in es :: e == Obj(FulfillmentMap(p, base, IDAt(e))))
    && Distinct(IDsAt(es))
    && (set id | id in IDsAt(es)) == ids
  }

  function ProviderMap(p: Provider, base: Fields, chosen: seq<nat>): Fields
    requires ValidChoice(p, chosen)
  {
    var m := ObjAt(base, "provider")["id" := Str(p.id)];
    if ChosenLocation(p, chosen) != "" then m["locations" := Arr([Obj(map["id" := Str(ChosenLocation(p, chosen))])])] else m
  }

  /** What an order for the chosen items is: the template with items, provider and fulfillments replaced. */
  ghost predicate IsOrder(p: Provider, base: Fields, chosen: seq<nat>, order: Fields)
    requires ValidChoice(p, chosen)
  {
    && HasArr(order, "items") && order["items"].elems == ItemMaps(p, chosen)
    && (if HasObj(base, "provider") then "provider" in order && order["provider"] == Obj(ProviderMap(p, base, chosen))
        else SameAt(base, order, "provider"))
    && (if Used(p, chosen) != {} then HasArr(order, "fulfillments") && Fulfills(p, base, Used(p, chosen), order["fulfillments"].elems)
        else SameAt(base, order, "fulfillments"))
    && forall k | k != "items" && k != "provider" && k != "fulfillments" :: SameAt(base, order, k)
  }

  function Chosen(d: Draw): seq<nat>
    requires d.extra < |d.perm|
  {
    d.perm[..1 + d.extra]
  }

  // ---------------------------------------------------------------- building orders

  method BuildFulfillments(p: Provider, base: Fields, types: map<string, string>, ids: set<string>) returns (out: seq<Json>)
    requires types == Types(p.fulfillments)
    ensures Fulfills(p, base, ids, out)
  {
    out := [];
    var rest := ids;
    while rest != {}
      invariant rest <= ids
      invariant Fulfills(p, base, ids - rest, out)
    {
      var id :| id in rest;
      var f := FulfillmentTemplate(base);
      f := f["id" := Str(id)];
      f := f["type" := Str(if id in types then types[id] else "Delivery")];
      ghost var before := IDsAt(out);
      FulfillsOneMore(p, base, ids - rest, out, id);
      out := out + [Obj(f)];
      rest := rest - {id};
      assert ids - rest == (ids - (rest + {id})) + {id};
    }
  }

  lemma FulfillsOneMore(p: Provider, base: Fields, ids: set<string>, es: seq<Json>, id: string)
    requires Fulfills(p, base, ids, es) && id !in ids
    ensures Fulfills(p, base, ids + {id}, es + [Obj(FulfillmentMap(p, base, id))])
  {
    var e := Obj(FulfillmentMap(p, base, id));
    assert "id" != "type";
    assert IDAt(e) == id;
    var was, now := IDsAt(es), IDsAt(es + [e]);
    assert now == was + [id];
    forall i, j | 0 <= i < j < |now| ensures now[i] != now[j] {
      if j == |was| {
        assert was[i] in was;
      }
    }
  }

  method ChooseItems(p: Provider, chosen: seq<nat>, defaultID: string)
    returns (items: seq<Json>, ids: set<string>, location: string)
    requires ValidChoice(p, chosen) && defaultID == DefaultFulfillment(p.fulfillments)
    ensures items == ItemMaps(p, chosen) && ids == Used(p, chosen) && location == ChosenLocation(p, chosen)
  {
    items, ids, location := [], {}, "";
    for n := 0 to |chosen|
      invariant ValidChoice(p, chosen[..n])
      invariant items == ItemMaps(p, chosen[..n]) && ids == Used(p, chosen[..n]) && location == ChosenLocation(p, chosen[..n])
    {
      var it := p.items[chosen[n]];
      var itemLocation := it.locationID;
      if FirstLocation(p) != "" {
        itemLocation := FirstLocation(p);
      }
      if location == "" && itemLocation != "" {
        location := itemLocation;
      }
      var m: Fields := map["id" := Str(it.id), "location_id" := Str(itemLocation), "fulfillment_id" := Str(it.fulfillmentID),
                   "tags" := ITEM_TAGS, "quantity" := Obj(map["count" := Num(2.0)])];
      if it.fulfillmentID == "" && defaultID != "" {
        m := m["fulfillment_id" := Str(defaultID)];
        ids := ids + {defaultID};
      }
      if it.fulfillmentID != "" {
        ids := ids + {it.fulfillmentID};
      }
      if it.parentItemID != "" {
        m := m["parent_item_id" := Str(it.parentItemID)];
      }
      ItemBuilt(p, it, m);
      items := items + [Obj(m)];
      OneMore(p, chosen, n);
    }
    assert chosen[..|chosen|] == chosen;
  }

  lemma ItemBuilt(p: Provider, it: CatalogItem, m: Fields)
    requires var b: Fields := map["id" := Str(it.id), "location_id" := Str(LocationOf(p, it)), "fulfillment_id" := Str(it.fulfillmentID),
                          "tags" := ITEM_TAGS, "quantity" := Obj(map["count" := Num(2.0)])];
             var b' := if it.fulfillmentID == "" && FulfillmentOf(p, it) != "" then b["fulfillment_id" := Str(FulfillmentOf(p, it))] else b;
             m == if it.parentItemID != "" then b'["parent_item_id" := Str(it.parentItemID)] else b'
    ensures m == ItemMap(p, it)
  {
    assert FulfillmentOf(p, it) == "" ==> it.fulfillmentID == "";
  }

  lemma OneMore(p: Provider, chosen: seq<nat>, n: nat)
    requires ValidChoice(p, chosen) && n < |chosen|
    ensures ValidChoice(p, chosen[..n]) && ValidChoice(p, chosen[..n + 1])
    ensures ItemMaps(p, chosen[..n + 1]) == ItemMaps(p, chosen[..n]) + [Obj(ItemMap(p, p.items[chosen[n]]))]
    ensures var id := FulfillmentOf(p, p.items[chosen[n]]);
            Used(p, chosen[..n + 1]) == Used(p, chosen[..n]) + (if id != "" then {id} else {})
    ensures ChosenLocation(p, chosen[..n + 1]) == OrElse(ChosenLocation(p, chosen[..n]), LocationOf(p, p.items[chosen[n]]))
  {
    assert chosen[..n + 1] == chosen[..n] + [chosen[n]];
    assert chosen[..n + 1][..n] == chosen[..n];
  }

  method BuildOrder(p: Provider, base: Fields, defaultID: string, types: map<string, string>, chosen: seq<nat>) returns (order: Fields)
    requires ValidChoice(p, chosen) && defaultID == DefaultFulfillment(p.fulfillments) && types == Types(p.fulfillments)
    ensures IsOrder(p, base, chosen, order)
  {
    order := base;
    var items, ids, location := ChooseItems(p, chosen, defaultID);
    order := order["items" := Arr(items)];
    OrderKeys();
    if HasObj(order, "provider") {
      var provider := order["provider"].fields;
      provider := provider["id" := Str(p.id)];
      if location != "" {
        provider := provider["locations" := Arr([Obj(map["id" := Str(location)])])];
      }
      order := order["provider" := Obj(provider)];
    }
    if ids != {} {
      var fulfillments := BuildFulfillments(p, base, types, ids);
      order := order["fulfillments" := Arr(fulfillments)];
    }
  }

  lemma OrderKeys()
    ensures "items" != "provider" && "items" != "fulfillments" && "provider" != "fulfillments"
  {
  }

  function OrderCount(cat: Catalog, distinctCount: int): nat {
    if distinctCount <= 0 || cat.Unreadable? || cat.providers == [] then 0 else Min(distinctCount, |cat.providers[0].items|)
  }

  /** An order built from one draw. */
  ghost predicate Built(p: Provider, base: Fields, d: Draw, order: Fields) {
    ValidDraw(|p.items|, d) && p.items != [] && ValidChoice(p, Chosen(d)) && IsOrder(p, base, Chosen(d), order)
  }

  method ReadFulfillments(fs: seq<CatalogFulfillment>) returns (types: map<string, string>, defaultID: string)
    ensures types == Types(fs) && defaultID == DefaultFulfillment(fs)
  {
    types, defaultID := map[], "";
    for i := 0 to |fs|
      invariant types == Types(fs[..i]) && defaultID == DefaultFulfillment(fs[..i])
    {
      var f := fs[i];
      assert fs[..i + 1][..i] == fs[..i];
      if f.id == "" {
        continue;
      }
      if defaultID == "" {
        defaultID := f.id;
      }
      if f.kind != "" {
        types := types[f.id := f.kind];
      }
    }
    assert fs[..|fs|] == fs;
  }

  method BuildFromDraw(p: Provider, base: Fields, defaultID: string, types: map<string, string>, d: Draw) returns (order: Fields)
    requires p.items != [] && ValidDraw(|p.items|, d)
    requires defaultID == DefaultFulfillment(p.fulfillments) && types == Types(p.fulfillments)
    ensures Built(p, base, d, order)
  {
    order := BuildOrder(p, base, defaultID, types, Chosen(d));
  }

  method BuildOrders(p: Provider, base: Fields, count: nat, draws: nat -> Draw) returns (out: seq<Fields>)
    requires p.items != [] && forall i: nat :: ValidDraw(|p.items|, draws(i))
    ensures |out| == count && forall i | 0 <= i < count :: Built(p, base, draws(i), out[i])
  {
    var types, defaultID := ReadFulfillments(p.fulfillments);
    out := [];
    for i := 0 to count
      invariant |out| == i && forall j | 0 <= j < i :: Built(p, base, draws(j), out[j])
    {
      var d := draws(i);
      var order := BuildFromDraw(p, base, defaultID, types, d);
      out := out + [order];
    }
  }

  method BuildDistinctOrders(cat: Catalog, base: Fields, distinctCount: int, draws: nat -> Draw) returns (out: seq<Fields>)
    requires cat.Catalog? && cat.providers != [] && cat.providers[0].items != [] ==>
               forall i: nat :: ValidDraw(|cat.providers[0].items|, draws(i))
    ensures |out| == OrderCount(cat, distinctCount)
    ensures forall i | 0 <= i < |out| :: Built(cat.providers[0], base, draws(i), out[i])
  {
    if distinctCount <= 0 || cat.Unreadable? || cat.providers == [] {
      return [];
    }
    var p := cat.providers[0];
    if p.items == [] {
      return [];
    }
    out := BuildOrders(p, base, if distinctCount > |p.items| then |p.items| else distinctCount, draws);
  }

  // ---------------------------------------------------------------- an order refers only to what it holds

  function RefAt(it: Json): string {
    if it.Obj? then StrAt(it.fields, "fulfillment_id") else ""
  }

  /** The fulfillments the items of an order name. */
  function ItemRefs(order: Fields): set<string> {
    if HasArr(order, "items") then set it | it in order["items"].elems && RefAt(it) != "" :: RefAt(it) else {}
  }

  /** The ids of the fulfillments of an order. */
  function FulfillmentIDs(order: Fields): seq<string> {
    if HasArr(order, "fulfillments") then IDsAt(order["fulfillments"].elems) else []
  }

  /** When its items name any fulfillment, an order holds exactly those, each once. */
  ghost predicate ClosedUnderReference(order: Fields) {
    ItemRefs(order) != {} ==> Distinct(FulfillmentIDs(order)) && (set id | id in FulfillmentIDs(order)) == ItemRefs(order)
  }

  lemma ItemMapMeaning(p: Provider, it: CatalogItem)
    ensures StrAt(ItemMap(p, it), "id") == it.id
    ensures StrAt(ItemMap(p, it), "fulfillment_id") == FulfillmentOf(p, it)
    ensures StrAt(ItemMap(p, it), "location_id") == LocationOf(p, it)
    ensures StrAt(ItemMap(p, it), "parent_item_id") == it.parentItemID
    ensures "fulfillment_id" in ItemMap(p, it)
  {
    assert "fulfillment_id"[0] == 'f' && "parent_item_id"[0] == 'p';
  }

  /** What is ordered of an item: two of it, tagged as an item, at the provider's first location or, without one, at its
      own, by its own fulfillment or, without one, by the provider's; with its parent only when it has one. */
  ghost predicate OrderedAs(p: Provider, it: CatalogItem, m: Fields) {
    && StrAt(m, "id") == it.id
    && StrAt(m, "location_id") == (if p.locations != [] && p.locations[0] != "" then p.locations[0] else it.locationID)
    && (it.fulfillmentID != "" ==> StrAt(m, "fulfillment_id") == it.fulfillmentID)
    && (it.fulfillmentID == "" ==> FirstFulfillment(p.fulfillments, StrAt(m, "fulfillment_id")))
    && ("parent_item_id" in m <==> it.parentItemID != "") && StrAt(m, "parent_item_id") == it.parentItemID
    && "count" in ObjAt(m, "quantity") && ObjAt(m, "quantity")["count"] == Num(2.0)
    && "tags" in m
    && m["tags"] == Arr([Obj(map["code" := Str("type"), "list" := Arr([Obj(map["code" := Str("type"), "value" := Str("item")])])])])
    && m.Keys <= {"id", "location_id", "fulfillment_id", "tags", "quantity", "parent_item_id"}
  }

  /** The first fulfillment id of a provider that is not empty, or the empty one when all are. */
  ghost predicate FirstFulfillment(fs: seq<CatalogFulfillment>, id: string) {
    if id == "" then forall i | 0 <= i < |fs| :: fs[i].id == ""
    else exists i :: 0 <= i < |fs| && fs[i].id == id && forall j | 0 <= j < i :: fs[j].id == ""
  }

  lemma {:induction false} DefaultIsFirst(fs: seq<CatalogFulfillment>)
    ensures FirstFulfillment(fs, DefaultFulfillment(fs))
  {
    if fs != [] {
      var n := |fs| - 1;
      var id := DefaultFulfillment(fs[..n]);
      DefaultIsFirst(fs[..n]);
      if id != "" {
        var i :| 0 <= i < n && fs[..n][i].id == id && forall j | 0 <= j < i :: fs[..n][j].id == "";
        assert fs[i].id == id && forall j | 0 <= j < i :: fs[j].id == fs[..n][j].id;
      } else {
        assert forall i | 0 <= i < n :: fs[i].id == fs[..n][i].id;
        assert fs[n].id == DefaultFulfillment(fs);
      }
    }
  }

  lemma ItemOrdered(p: Provider, it: CatalogItem)
    ensures OrderedAs(p, it, ItemMap(p, it))
  {
    ItemMapMeaning(p, it);
    ItemKeysDiffer();
    if it.fulfillmentID == "" {
      DefaultIsFirst(p.fulfillments);
    }
  }

  lemma ItemKeysDiffer()
    ensures "tags" != "quantity" && "fulfillment_id" != "parent_item_id" && "tags" != "parent_item_id" && "quantity" != "parent_item_id"
  {
    assert "fulfillment_id"[0] == 'f' && "parent_item_id"[0] == 'p';
  }

  /** What the provider of an order is: the catalog's, by id, with the location of the first chosen item that has one. */
  ghost predicate ProvidedBy(p: Provider, base: Fields, chosen: seq<nat>, order: Fields)
    requires ValidChoice(p, chosen)
  {
    var before, after := ObjAt(base, "provider"), ObjAt(order, "provider");
    && StrAt(after, "id") == p.id
    && (forall k | k != "id" && k != "locations" :: SameAt(before, after, k))
    && (if forall i | 0 <= i < |chosen| :: LocationOf(p, p.items[chosen[i]]) == "" then SameAt(before, after, "locations")
        else exists i :: 0 <= i < |chosen| && FirstLocated(p, chosen, i)
                         && "locations" in after && after["locations"] == Arr([Obj(map["id" := Str(LocationOf(p, p.items[chosen[i]]))])]))
  }

  /** The first chosen item that has a location. */
  predicate FirstLocated(p: Provider, chosen: seq<nat>, i: nat)
    requires ValidChoice(p, chosen) && i < |chosen|
  {
    LocationOf(p, p.items[chosen[i]]) != "" && forall j | 0 <= j < i :: LocationOf(p, p.items[chosen[j]]) == ""
  }

  lemma {:induction false} ChosenIsFirst(p: Provider, chosen: seq<nat>) returns (i: nat)
    requires ValidChoice(p, chosen) && ChosenLocation(p, chosen) != ""
    ensures i < |chosen| && FirstLocated(p, chosen, i) && LocationOf(p, p.items[chosen[i]]) == ChosenLocation(p, chosen)
  {
    var n := |chosen| - 1;
    if ChosenLocation(p, chosen[..n]) != "" {
      i := ChosenIsFirst(p, chosen[..n]);
    } else {
      ChosenLocationMeaning(p, chosen[..n]);
      forall j | 0 <= j < n ensures LocationOf(p, p.items[chosen[j]]) == "" {
        assert chosen[j] in chosen[..n];
      }
      i := n;
    }
  }

  /** A generated order: the items of the draw's first positions, one more than drawn, each as it is ordered, in order;
      the provider, where the template has one; and every other key but the fulfillments as in the template. */
  lemma OrderMeaning(p: Provider, base: Fields, d: Draw, order: Fields)
    requires Built(p, base, d, order)
    ensures HasArr(order, "items") && |order["items"].elems| == d.extra + 1 <= 5
    ensures forall i | 0 <= i <= d.extra ::
              var e := order["items"].elems[i]; e.Obj? && OrderedAs(p, p.items[d.perm[i]], e.fields)
    ensures HasObj(order, "provider") <==> HasObj(base, "provider")
    ensures HasObj(base, "provider") ==> ProvidedBy(p, base, d.perm[..d.extra + 1], order)
    ensures forall k | k != "items" && k != "provider" && k != "fulfillments" :: SameAt(base, order, k)
  {
    var chosen := Chosen(d);
    assert chosen == d.perm[..d.extra + 1];
    forall i | 0 <= i <= d.extra
      ensures var e := order["items"].elems[i]; e.Obj? && OrderedAs(p, p.items[d.perm[i]], e.fields)
    {
      ItemOrdered(p, p.items[chosen[i]]);
    }
    if HasObj(base, "provider") {
      OrderProvided(p, base, chosen, order);
    }
  }

  lemma OrderProvided(p: Provider, base: Fields, chosen: seq<nat>, order: Fields)
    requires ValidChoice(p, chosen) && IsOrder(p, base, chosen, order) && HasObj(base, "provider")
    ensures ProvidedBy(p, base, chosen, order)
  {
    assert "id" != "locations";
    ChosenLocationMeaning(p, chosen);
    if ChosenLocation(p, chosen) != "" {
      var i := ChosenIsFirst(p, chosen);
    } else {
      forall i | 0 <= i < |chosen| ensures LocationOf(p, p.items[chosen[i]]) == "" {
        assert chosen[i] in chosen;
      }
    }
  }

  /** As many orders as asked for, as far as the first provider's items go; none without a provider or an item. */
  lemma OrderCountMeaning(cat: Catalog, count: int)
    ensures var n := OrderCount(cat, count);
            if count >= 1 && cat.Catalog? && cat.providers != [] then n <= count && n <= |cat.providers[0].items| && (n == count || n == |cat.providers[0].items|)
            else n == 0
  {
  }

  lemma RefsAreUsed(p: Provider, base: Fields, chosen: seq<nat>, order: Fields)
    requires ValidChoice(p, chosen) && IsOrder(p, base, chosen, order)
    ensures ItemRefs(order) == Used(p, chosen)
  {
    var items := order["items"].elems;
    forall i | 0 <= i < |chosen| ensures RefAt(items[i]) == FulfillmentOf(p, p.items[chosen[i]]) {
      ItemMapMeaning(p, p.items[chosen[i]]);
    }
    forall id | id in Used(p, chosen) ensures id in ItemRefs(order) {
      var i :| 0 <= i < |chosen| && FulfillmentOf(p, p.items[chosen[i]]) == id;
      assert items[i] in items;
    }
  }

  /** Every generated order is closed under reference, and has one to five items from distinct catalog positions. */
  lemma OrdersAreClosed(p: Provider, base: Fields, d: Draw, order: Fields)
    requires Built(p, base, d, order)
    ensures ClosedUnderReference(order)
    ensures 1 <= |order["items"].elems| == d.extra + 1 <= Min(5, |p.items|) && Distinct(Chosen(d))
    ensures forall i | 0 <= i < |order["items"].elems| :: IDAt(order["items"].elems[i]) == p.items[Chosen(d)[i]].id
  {
    RefsAreUsed(p, base, Chosen(d), order);
    forall i | 0 <= i < |order["items"].elems| ensures IDAt(order["items"].elems[i]) == p.items[Chosen(d)[i]].id {
      ItemMapMeaning(p, p.items[Chosen(d)[i]]);
    }
  }

  /** No item names a fulfillment exactly when no chosen item has one and the provider has none to default to. */
  lemma RefsMissing(p: Provider, base: Fields, chosen: seq<nat>, order: Fields)
    requires chosen != [] && ValidChoice(p, chosen) && IsOrder(p, base, chosen, order)
    ensures ItemRefs(order) == {} <==>
              (forall x | x in chosen :: p.items[x].fulfillmentID == "") && (forall f | f in p.fulfillments :: f.id == "")
  {
    RefsAreUsed(p, base, chosen, order);
    DefaultMeaning(p.fulfillments);
    assert chosen[0] in chosen;
    if forall x | x in chosen :: p.items[x].fulfillmentID == "" {
      if DefaultFulfillment(p.fulfillments) != "" {
        assert FulfillmentOf(p, p.items[chosen[0]]) in Used(p, chosen);
      }
    } else {
      var x :| x in chosen && p.items[x].fulfillmentID != "";
      assert FulfillmentOf(p, p.items[x]) in Used(p, chosen);
    }
  }

  lemma {:induction false} DefaultMeaning(fs: seq<CatalogFulfillment>)
    ensures DefaultFulfillment(fs) == "" <==> forall f | f in fs :: f.id == ""
  {
    if fs != [] {
      var n := |fs| - 1;
      DefaultMeaning(fs[..n]);
      assert fs == fs[..n] + [fs[n]];
    }
  }

  /** A type is known for exactly the ids some typed fulfillment of the provider has, and is that of the last one. */
  lemma {:induction false} TypesMeaning(fs: seq<CatalogFulfillment>, id: string)
    ensures id in Types(fs) <==> id != "" && exists f :: f in fs && f.id == id && f.kind != ""
    ensures forall i | 0 <= i < |fs| && id != "" && fs[i].id == id && fs[i].kind != "" ::
              (forall j | i < j < |fs| :: fs[j].id != id || fs[j].kind == "") ==> Types(fs)[id] == fs[i].kind
  {
    if fs != [] {
      var n := |fs| - 1;
      TypesMeaning(fs[..n], id);
      assert fs == fs[..n] + [fs[n]];
      forall i | 0 <= i < n ensures fs[..n][i] == fs[i] {
      }
    }
  }

  /** Each fulfillment of an order keeps the template's other fields and has the type the catalog gives it. */
  lemma FulfillmentsTyped(p: Provider, base: Fields, d: Draw, order: Fields, e: Json)
    requires Built(p, base, d, order) && ItemRefs(order) != {} && e in order["fulfillments"].elems
    ensures IDAt(e) in ItemRefs(order)
    ensures e.Obj? && TypedFrom(p, base, e.fields)
  {
    RefsAreUsed(p, base, Chosen(d), order);
    FulfillsMember(p, base, Used(p, Chosen(d)), order["fulfillments"].elems, e);
  }

  /** A fulfillment made from the template, with the type the catalog gives its id. */
  ghost predicate TypedFrom(p: Provider, base: Fields, f: Fields) {
    var id := StrAt(f, "id");
    && StrAt(f, "type") == (if id in Types(p.fulfillments) then Types(p.fulfillments)[id] else "Delivery")
    && forall k | k != "id" && k != "type" :: SameAt(FulfillmentTemplate(base), f, k)
  }

  lemma FulfillsMember(p: Provider, base: Fields, ids: set<string>, es: seq<Json>, e: Json)
    requires Fulfills(p, base, ids, es) && e in es
    ensures IDAt(e) in ids && e.Obj? && TypedFrom(p, base, e.fields)
  {
    var i :| 0 <= i < |es| && es[i] == e;
    assert IDsAt(es)[i] == IDAt(e);
    assert IDAt(e) in IDsAt(es);
    assert e == Obj(FulfillmentMap(p, base, IDAt(e)));
  }

  // ---------------------------------------------------------------- locations

  function LocationAt(it: Json): string {
    if it.Obj? then StrAt(it.fields, "location_id") else ""
  }

  predicate HasID(e: Json, id: string) {
    e.Obj? && "id" in e.fields && e.fields["id"] == Str(id)
  }

  /** The provider of an order lists a location. */
  predicate ListsLocation(order: Fields, l: string) {
    var pr := ObjAt(order, "provider");
    HasArr(pr, "locations") && exists e :: e in pr["locations"].elems && HasID(e, l)
  }

  /** Every item of an order is at a location its provider lists. */
  predicate LocationsAgree(order: Fields) {
    forall it | it in (if HasArr(order, "items") then order["items"].elems else []) :: ListsLocation(order, LocationAt(it))
  }

  lemma ItemLocations(p: Provider, base: Fields, chosen: seq<nat>, order: Fields, i: nat)
    requires ValidChoice(p, chosen) && IsOrder(p, base, chosen, order) && i < |chosen|
    ensures LocationAt(order["items"].elems[i]) == LocationOf(p, p.items[chosen[i]])
  {
    ItemMapMeaning(p, p.items[chosen[i]]);
  }

  /** The chosen location is the location of some chosen item, if any item has one. */
  lemma {:induction false} ChosenLocationMeaning(p: Provider, chosen: seq<nat>)
    requires ValidChoice(p, chosen)
    ensures ChosenLocation(p, chosen) == "" <==> forall x | x in chosen :: LocationOf(p, p.items[x]) == ""
    ensures ChosenLocation(p, chosen) != "" ==> exists x :: x in chosen && LocationOf(p, p.items[x]) == ChosenLocation(p, chosen)
  {
    if chosen != [] {
      var n := |chosen| - 1;
      assert chosen == chosen[..n] + [chosen[n]];
      ChosenLocationMeaning(p, chosen[..n]);
    }
  }

  predicate SameLocation(p: Provider, chosen: seq<nat>)
    requires ValidChoice(p, chosen)
  {
    forall i, j | 0 <= i < |chosen| && 0 <= j < |chosen| :: LocationOf(p, p.items[chosen[i]]) == LocationOf(p, p.items[chosen[j]])
  }

  /** What the provider of an order lists: the chosen location, or, without one, what the template's provider lists. */
  lemma OrderLists(p: Provider, base: Fields, chosen: seq<nat>, order: Fields, l: string)
    requires ValidChoice(p, chosen) && IsOrder(p, base, chosen, order)
    ensures ListsLocation(order, l) <==>
              HasObj(base, "provider")
              && if ChosenLocation(p, chosen) != "" then l == ChosenLocation(p, chosen) else ListsLocation(base, l)
  {
    assert "id" != "locations";
    if HasObj(base, "provider") && ChosenLocation(p, chosen) != "" {
      var e := Obj(map["id" := Str(ChosenLocation(p, chosen))]);
      assert ObjAt(order, "provider")["locations"] == Arr([e]);
      assert e in [e] && HasID(e, ChosenLocation(p, chosen));
    }
  }

  /** The locations of one order agree if and only if the template has a provider, the chosen items are at one
      location, and that is not empty or the template's provider lists it. */
  lemma LocationsAgreeExactly(p: Provider, base: Fields, chosen: seq<nat>, order: Fields)
    requires chosen != [] && ValidChoice(p, chosen) && IsOrder(p, base, chosen, order)
    ensures LocationsAgree(order) <==>
              HasObj(base, "provider") && SameLocation(p, chosen) && (ChosenLocation(p, chosen) != "" || ListsLocation(base, ""))
    ensures ChosenLocation(p, chosen) == "" <==> forall i | 0 <= i < |chosen| :: LocationOf(p, p.items[chosen[i]]) == ""
  {
    var items := order["items"].elems;
    ChosenLocationMeaning(p, chosen);
    forall i | 0 <= i < |chosen| ensures chosen[i] in chosen && items[i] in items {
    }
    forall i | 0 <= i < |chosen|
      ensures ListsLocation(order, LocationAt(items[i])) <==>
                HasObj(base, "provider") && var l := LocationOf(p, p.items[chosen[i]]);
                if ChosenLocation(p, chosen) != "" then l == ChosenLocation(p, chosen) else ListsLocation(base, l)
    {
      ItemLocations(p, base, chosen, order, i);
      OrderLists(p, base, chosen, order, LocationAt(items[i]));
    }
    assert LocationsAgree(order) <==> forall i | 0 <= i < |chosen| :: ListsLocation(order, LocationAt(items[i]));
  }

  // ---------------------------------------------------------------- every order a catalog can give

  lemma SomeFulfillments(p: Provider, base: Fields, ids: set<string>) returns (es: seq<Json>)
    ensures Fulfills(p, base, ids, es)
  {
    es := [];
    if ids != {} {
      var id :| id in ids;
      es := SomeFulfillments(p, base, ids - {id});
      FulfillsOneMore(p, base, ids - {id}, es, id);
      es := es + [Obj(FulfillmentMap(p, base, id))];
      assert ids - {id} + {id} == ids;
    }
  }

  /** Every valid draw gives an order. */
  lemma SomeOrder(p: Provider, base: Fields, d: Draw) returns (order: Fields)
    requires p.items != [] && ValidDraw(|p.items|, d)
    ensures Built(p, base, d, order)
  {
    var chosen := Chosen(d);
    var es := SomeFulfillments(p, base, Used(p, chosen));
    OrderKeys();
    order := base["items" := Arr(ItemMaps(p, chosen))];
    if HasObj(base, "provider") {
      order := order["provider" := Obj(ProviderMap(p, base, chosen))];
    }
    if Used(p, chosen) != {} {
      order := order["fulfillments" := Arr(es)];
    }
  }

  /** The draw that chooses the first item alone, or with another one. */
  function DrawWith(n: nat, i: nat): Draw
    requires i < n
  {
    Draw(if i == 0 then 0 else 1, seq(n, k => if i == 0 then k else if k == 1 then i else if k == i then 1 else k))
  }

  lemma DrawWithValid(n: nat, i: nat)
    requires i < n
    ensures ValidDraw(n, DrawWith(n, i))
    ensures Chosen(DrawWith(n, i)) == if i == 0 then [0] else [0, i]
  {
  }

  /** A catalog's items are all at one location. */
  predicate OneLocation(p: Provider) {
    forall i, j | 0 <= i < |p.items| && 0 <= j < |p.items| :: p.items[i].locationID == p.items[j].locationID
  }

  /** What makes the locations of every order agree: a template with a provider; and a first provider location, or
      catalog items all at one location that is not empty or that the template's provider lists. */
  predicate AlwaysAgrees(p: Provider, base: Fields)
    requires p.items != []
  {
    && HasObj(base, "provider")
    && (FirstLocation(p) != "" || (OneLocation(p) && (p.items[0].locationID != "" || ListsLocation(base, ""))))
  }

  lemma AgreeingCatalog(p: Provider, base: Fields, d: Draw, order: Fields)
    requires Built(p, base, d, order) && AlwaysAgrees(p, base)
    ensures LocationsAgree(order)
  {
    LocationsAgreeExactly(p, base, Chosen(d), order);
    assert LocationOf(p, p.items[Chosen(d)[0]]) != "" || ListsLocation(base, "");
  }

  /** Whenever the condition fails, some draw gives an order whose locations do not agree. */
  lemma DisagreeingOrder(p: Provider, base: Fields) returns (d: Draw, order: Fields)
    requires p.items != [] && !AlwaysAgrees(p, base)
    ensures Built(p, base, d, order) && !LocationsAgree(order)
  {
    var i := 0;
    if FirstLocation(p) == "" && !OneLocation(p) {
      i :| 0 <= i < |p.items| && p.items[i].locationID != p.items[0].locationID;
    }
    d := DrawWith(|p.items|, i);
    DrawWithValid(|p.items|, i);
    order := SomeOrder(p, base, d);
    LocationsAgreeExactly(p, base, Chosen(d), order);
    if i != 0 {
      assert LocationOf(p, p.items[Chosen(d)[0]]) != LocationOf(p, p.items[Chosen(d)[1]]);
    }
  }

  /** Every order a catalog can give has agreeing locations if and only if the catalog and the template alone say so. */
  lemma CatalogLocationsExactly(p: Provider, base: Fields)
    requires p.items != []
    ensures AlwaysAgrees(p, base) <==> forall d: Draw, order: Fields | Built(p, base, d, order) :: LocationsAgree(order)
  {
    if AlwaysAgrees(p, base) {
      forall d: Draw, order: Fields | Built(p, base, d, order) ensures LocationsAgree(order) {
        AgreeingCatalog(p, base, d, order);
      }
    } else {
      var d, order := DisagreeingOrder(p, base);
    }
  }

  /** An input that fails: two items at two locations, and no provider location. */
  lemma TwoLocationsDisagree(p: Provider, base: Fields)
    requires p == Provider("P", [], [], [CatalogItem("a", "L1", "", ""), CatalogItem("b", "L2", "", "")])
    requires base == map["provider" := Obj(map[])]
    ensures exists d: Draw, order: Fields :: Built(p, base, d, order) && !LocationsAgree(order)
  {
    assert "L1"[1] == '1' && "L2"[1] == '2';
    assert p.items[0].locationID != p.items[1].locationID;
    var d, order := DisagreeingOrder(p, base);
  }

  /** Another one: an item without a location, while the template's provider lists one. */
  lemma EmptyLocationDisagrees(p: Provider, base: Fields)
    requires p == Provider("P", [], [], [CatalogItem("a", "", "", "")])
    requires base == map["provider" := Obj(map["locations" := Arr([Obj(map["id" := Str("L9")])])])]
    ensures exists d: Draw, order: Fields :: Built(p, base, d, order) && !LocationsAgree(order)
  {
    assert !ListsLocation(base, "");
    var d, order := DisagreeingOrder(p, base);
  }
}
