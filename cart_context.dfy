/** The shopping-cart store of `CartContext.jsx`: an ordered list of line
    items keyed by `id`, rehydrated from local storage at start-up and
    mirrored back to storage after every change. */
module CartContext {
  import opened JsValues
  import opened Records

  /** What `localStorage.getItem(key)` followed by `JSON.parse` gives for a
      key that is present: the empty string, text that does not parse (or a
      read that throws), a JSON value that is not an array, or an array. */
  datatype Stored = Blank | Unparseable | NonArray | Arr(items: seq<Record>)

  /** Local storage; a key that is absent is `getItem` returning null. */
  type Storage = map<string, Stored>

  const CartKey := "cart"
  const LegacyKeys: seq<string> := ["cartItems", "panier"]

  /** Items loaded at start-up, with the storage as it is afterwards. */
  datatype Loaded = Loaded(items: seq<Record>, storage: Storage)

  predicate HoldsArray(st: Storage, key: string)
  {
    key in st && st[key].Arr?
  }

  /** `localStorage.setItem('cart', JSON.stringify(items))`; when storage
      refuses writes the call throws and nothing changes. */
  function Persisted(st: Storage, items: seq<Record>, writable: bool): Storage
  {
    if writable then st[CartKey := Arr(items)] else st
  }

  /** Storage whose `cart` key holds an array reloads exactly that array,
      in order, and the reload writes nothing. */
  lemma StoredCartReloads(st: Storage, items: seq<Record>, writable: bool)
    requires CartKey in st && st[CartKey] == Arr(items)
    ensures RehydratedCart(st, writable) == Loaded(items, st)
  {
    assert HoldsArray(st, CartKey);
  }

  /** Reloading after a successful write gives back exactly the items
      written, and the reload writes nothing. */
  lemma ReloadAfterPersist(st: Storage, items: seq<Record>, writable: bool)
    ensures RehydratedCart(Persisted(st, items, true), writable) == Loaded(items, Persisted(st, items, true))
  {
    StoredCartReloads(Persisted(st, items, true), items, writable);
  }

  /** With storage that refuses writes, no change of the cart survives a
      reload: the reload gives what the untouched storage gives. */
  lemma ReadOnlyReload(st: Storage, items: seq<Record>)
    ensures RehydratedCart(Persisted(st, items, false), false) == RehydratedCart(st, false)
  {
  }

  // ---------------------------------------------------------------------
  // Rehydration (readLocalCart)
  // ---------------------------------------------------------------------

  /** The legacy-key loop over the keys still to try: the first key holding
      an array is copied to the primary key and returned.  A write that
      throws is caught like a parse error, and the loop moves on. */
  function MigrateLegacy(st: Storage, keys: seq<string>, writable: bool): (r: Loaded)
    ensures r.items == [] || exists k :: 0 <= k < |keys| && HoldsArray(st, keys[k]) && r.items == st[keys[k]].items
    ensures r.storage == st || (writable && r.storage == st[CartKey := Arr(r.items)])
  {
    if keys == [] then Loaded([], st)
    else if HoldsArray(st, keys[0]) && writable then
      Loaded(st[keys[0]].items, Persisted(st, st[keys[0]].items, writable))
    else MigrateLegacy(st, keys[1..], writable)
  }

  /** What `readLocalCart` returns and leaves in storage. */
  function RehydratedCart(st: Storage, writable: bool): (r: Loaded)
    ensures HoldsArray(st, CartKey) ==> r == Loaded(st[CartKey].items, st)
    ensures CartKey in st && st[CartKey].NonArray? ==> r == Loaded([], st)
  {
    if CartKey in st && st[CartKey].NonArray? then Loaded([], st)
    else if HoldsArray(st, CartKey) then Loaded(st[CartKey].items, st)
    else MigrateLegacy(st, LegacyKeys, writable)
  }

  /** The first legacy key holding an array wins: its array is loaded and
      written under the primary key. */
  lemma {:induction false} MigrateFirstLegacyArray(st: Storage, keys: seq<string>, i: nat)
    requires i < |keys| && HoldsArray(st, keys[i])
    requires forall j :: 0 <= j < i ==> !HoldsArray(st, keys[j])
    ensures MigrateLegacy(st, keys, true) == Loaded(st[keys[i]].items, st[CartKey := Arr(st[keys[i]].items)])
  {
    if i > 0 {
      assert !HoldsArray(st, keys[0]);
      MigrateFirstLegacyArray(st, keys[1..], i - 1);
    }
  }

  /** With no legacy array, or with storage that refuses the migrating
      write, the cart starts empty and storage is untouched. */
  lemma {:induction false} MigrateNothing(st: Storage, keys: seq<string>, writable: bool)
    requires !writable || forall j :: 0 <= j < |keys| ==> !HoldsArray(st, keys[j])
    ensures MigrateLegacy(st, keys, writable) == Loaded([], st)
  {
    if keys != [] {
      MigrateNothing(st, keys[1..], writable);
    }
  }

  /** Primary key absent, blank or unparseable: `cartItems`, then `panier`;
      the first holding an array is loaded and migrated to `cart`. */
  lemma FallbackMigratesFirstLegacyArray(st: Storage, i: nat)
    requires CartKey !in st || st[CartKey].Blank? || st[CartKey].Unparseable?
    requires i < |LegacyKeys| && HoldsArray(st, LegacyKeys[i])
    requires forall j :: 0 <= j < i ==> !HoldsArray(st, LegacyKeys[j])
    ensures RehydratedCart(st, true) == Loaded(st[LegacyKeys[i]].items, st[CartKey := Arr(st[LegacyKeys[i]].items)])
  {
    MigrateFirstLegacyArray(st, LegacyKeys, i);
  }

  /** Primary key absent, blank or unparseable, and no legacy key usable:
      the cart is empty and nothing is written. */
  lemma FallbackWithoutLegacyArrayIsEmpty(st: Storage, writable: bool)
    requires CartKey !in st || st[CartKey].Blank? || st[CartKey].Unparseable?
    requires !writable || forall j :: 0 <= j < |LegacyKeys| ==> !HoldsArray(st, LegacyKeys[j])
    ensures RehydratedCart(st, writable) == Loaded([], st)
  {
    MigrateNothing(st, LegacyKeys, writable);
  }

  /** `readLocalCart` (CartContext.jsx:6-27), with its early returns and
      its loop over the legacy keys. */
  method ReadLocalCart(st: Storage, writable: bool) returns (items: seq<Record>, st': Storage)
    ensures Loaded(items, st') == RehydratedCart(st, writable)
  {
    if CartKey in st {
      var parsed := st[CartKey];
      if parsed.NonArray? {
        return [], st;
      } else if parsed.Arr? {
        return parsed.items, st;
      }
    }
    var i := 0;
    while i < |LegacyKeys|
      invariant 0 <= i <= |LegacyKeys|
      invariant MigrateLegacy(st, LegacyKeys[i..], writable) == RehydratedCart(st, writable)
    {
      var key := LegacyKeys[i];
      assert LegacyKeys[i..][1..] == LegacyKeys[i + 1..];
      if key in st && st[key].Arr? {
        var parsed := st[key].items;
        if writable {
          return parsed, st[CartKey := Arr(parsed)];
        }
      }
      i := i + 1;
    }
    return [], st;
  }

  // ---------------------------------------------------------------------
  // Line items and the list updates behind the actions
  // ---------------------------------------------------------------------

  /** The default parameter `quantity = 1` of `addItem`. */
  function QuantityArg(quantity: Value): Value
  {
    if quantity.Undefined? then Num(1.0) else quantity
  }

  /** `normalize(input, quantity)`: id, name, coerced price and quantity,
      then `...input`, so every property the input has overrides the
      coerced value. */
  function Normalize(input: Record, quantity: Value): (r: Record)
    ensures r.Keys == input.Keys + {"id", "name", "price", "quantity"}
    ensures forall k :: k in input ==> r[k] == input[k]
    ensures "price" !in input ==> r["price"] == Num(0.0)
    ensures "quantity" !in input ==> r["quantity"] == Num(NumberOr(Coalesce(quantity, Num(1.0)), 1.0))
  {
    var q := Coalesce(quantity, Coalesce(Get(input, "quantity"), Num(1.0)));
    map["id" := Get(input, "id"), "name" := Get(input, "name"),
        "price" := Num(NumberOr(Get(input, "price"), 0.0)),
        "quantity" := Num(NumberOr(q, 1.0))] + input
  }

  /** The amount a repeated add contributes: `Number(toAdd.quantity) || 1`. */
  function AddedQuantity(toAdd: Record): real
  {
    NumberOr(Get(toAdd, "quantity"), 1.0)
  }

  /** `{ ...existing, ...toAdd, quantity: (Number(existing.quantity) || 0) + added }`. */
  function Merge(existing: Record, toAdd: Record): (r: Record)
    ensures r.Keys == existing.Keys + toAdd.Keys + {"quantity"}
    ensures r["quantity"] == Num(NumberOr(Get(existing, "quantity"), 0.0) + AddedQuantity(toAdd))
  {
    existing + toAdd + map["quantity" := Num(NumberOr(Get(existing, "quantity"), 0.0) + AddedQuantity(toAdd))]
  }

  /** Apart from the quantity, a merged line takes the added record's
      fields and keeps the existing line's other fields. */
  lemma MergeFields(existing: Record, toAdd: Record)
    ensures forall k :: k in toAdd && k != "quantity" ==> Merge(existing, toAdd)[k] == toAdd[k]
    ensures forall k :: k in existing && k !in toAdd && k != "quantity" ==> Merge(existing, toAdd)[k] == existing[k]
  {
  }

  /** The state update of `addItem(product, quantity)`. */
  function AddItemTo(items: seq<Record>, product: Record, quantity: Value): (r: seq<Record>)
    ensures !Truthy(IdOf(product)) ==> r == items
  {
    if !Truthy(IdOf(product)) then items
    else
      var toAdd := Normalize(product, QuantityArg(quantity));
      var k := FindIndex(items, IdOf(toAdd));
      if k >= 0 then items[k := Merge(items[k], toAdd)] else items + [toAdd]
  }

  /** The state update of `updateQuantity(id, quantity)`. */
  function UpdateQuantityIn(items: seq<Record>, id: Value, quantity: Value): (r: seq<Record>)
    ensures NumberOr(quantity, 0.0) <= 0.0 ==> forall j :: 0 <= j < |r| ==> IdOf(r[j]) != id
    ensures NumberOr(quantity, 0.0) > 0.0 ==> |r| == |items| && forall j :: 0 <= j < |items| ==> IdOf(r[j]) == IdOf(items[j])
  {
    var q := NumberOr(quantity, 0.0);
    if q <= 0.0 then
      WithoutIdHasNoId(items, id);
      WithoutId(items, id)
    else SetFieldWhereId(items, id, "quantity", Num(q))
  }

  /** Adding a product whose id is already in the cart keeps the length and
      every other entry; the entry keeps its position and id, takes the
      product's other fields, and its quantity becomes old + added.  Since
      the normalized record always carries `name` and `price`, a product
      without them resets the line's price to 0 and its name to undefined;
      the line's own fields outside the four normalized ones are kept. */
  lemma AddExistingMerges(items: seq<Record>, product: Record, quantity: Value, k: nat)
    requires Truthy(IdOf(product))
    requires k < |items| && IdOf(items[k]) == IdOf(product)
    requires forall j :: 0 <= j < k ==> IdOf(items[j]) != IdOf(product)
    ensures var r := AddItemTo(items, product, quantity);
            var toAdd := Normalize(product, QuantityArg(quantity));
            && |r| == |items|
            && IdOf(r[k]) == IdOf(items[k])
            && Get(r[k], "quantity") == Num(NumberOr(Get(items[k], "quantity"), 0.0) + AddedQuantity(toAdd))
            && (forall key :: key in product && key != "quantity" ==> r[k][key] == product[key])
            && ("price" !in product ==> Get(r[k], "price") == Num(0.0))
            && ("name" !in product ==> Get(r[k], "name") == Undefined)
            && (forall key :: key in items[k] && key !in product && key != "id" && key != "name" && key != "price" && key != "quantity" ==>
                  r[k][key] == items[k][key])
            && (forall j :: 0 <= j < |items| && j != k ==> r[j] == items[j])
  {
    var toAdd := Normalize(product, QuantityArg(quantity));
    assert IdOf(toAdd) == IdOf(product);
    assert FindIndex(items, IdOf(toAdd)) == k;
    assert AddItemTo(items, product, quantity)[k] == Merge(items[k], toAdd);
    MergeFields(items[k], toAdd);
    assert "name" !in product ==> toAdd["name"] == Undefined;
  }

  /** Adding a product with a new id appends exactly its normalized record,
      so ids that were unique stay unique. */
  lemma AddNewAppends(items: seq<Record>, product: Record, quantity: Value)
    requires Truthy(IdOf(product))
    requires forall j :: 0 <= j < |items| ==> IdOf(items[j]) != IdOf(product)
    ensures AddItemTo(items, product, quantity) == items + [Normalize(product, QuantityArg(quantity))]
    ensures UniqueIds(items) ==> UniqueIds(AddItemTo(items, product, quantity))
  {
    var toAdd := Normalize(product, QuantityArg(quantity));
    assert IdOf(toAdd) == IdOf(product);
  }

  /** `addItem` keeps the ids unique. */
  lemma AddKeepsUniqueIds(items: seq<Record>, product: Record, quantity: Value)
    requires UniqueIds(items)
    ensures UniqueIds(AddItemTo(items, product, quantity))
  {
    if Truthy(IdOf(product)) {
      var k := FindIndex(items, IdOf(product));
      if k >= 0 {
        AddExistingMerges(items, product, quantity, k);
        var r := AddItemTo(items, product, quantity);
        assert forall j :: 0 <= j < |items| ==> IdOf(r[j]) == IdOf(items[j]);
      } else {
        AddNewAppends(items, product, quantity);
      }
    }
  }

  /** Every cart action keeps the ids unique. */
  lemma ActionsKeepUniqueIds(items: seq<Record>, product: Record, quantity: Value, id: Value)
    requires UniqueIds(items)
    ensures UniqueIds(AddItemTo(items, product, quantity))
    ensures UniqueIds(WithoutId(items, id))
    ensures UniqueIds(UpdateQuantityIn(items, id, quantity))
  {
    AddKeepsUniqueIds(items, product, quantity);
    WithoutIdKeepsUniqueIds(items, id);
    SetFieldKeepsIds(items, id, "quantity", Num(NumberOr(quantity, 0.0)));
  }

  /** `addItem(product, 0)` adds one: 0 is not nullish, so it reaches
      `Number(q) || 1`. */
  lemma AddZeroQuantityAddsOne(items: seq<Record>, product: Record)
    requires Truthy(IdOf(product)) && "quantity" !in product
    requires forall j :: 0 <= j < |items| ==> IdOf(items[j]) != IdOf(product)
    ensures var r := AddItemTo(items, product, Num(0.0));
            |r| == |items| + 1 && Get(r[|items|], "quantity") == Num(1.0)
  {
    AddNewAppends(items, product, Num(0.0));
  }

  /** `removeItem(id)` on an id that is not in the cart changes nothing. */
  lemma RemoveAbsentIsNoOp(items: seq<Record>, id: Value)
    requires forall j :: 0 <= j < |items| ==> IdOf(items[j]) != id
    ensures WithoutId(items, id) == items
  {
    WithoutAbsentId(items, id);
  }

  /** `updateQuantity(id, q)` with `Number(q) || 0` at most 0 (0, -5, null,
      or a non-numeric string) is `removeItem(id)`. */
  lemma UpdateNonPositiveRemoves(items: seq<Record>, id: Value, quantity: Value)
    requires NumberOr(quantity, 0.0) <= 0.0
    ensures UpdateQuantityIn(items, id, quantity) == WithoutId(items, id)
    ensures forall j :: 0 <= j < |UpdateQuantityIn(items, id, quantity)| ==>
              IdOf(UpdateQuantityIn(items, id, quantity)[j]) != id
  {
    WithoutIdHasNoId(items, id);
  }

  /** `updateQuantity(id, q)` with a positive q keeps the length; matching
      entries get quantity q and keep every other field; the rest are unchanged. */
  lemma UpdatePositiveSetsQuantity(items: seq<Record>, id: Value, quantity: Value)
    requires NumberOr(quantity, 0.0) > 0.0
    ensures var r := UpdateQuantityIn(items, id, quantity);
            && |r| == |items|
            && (forall j :: 0 <= j < |items| && IdOf(items[j]) == id ==>
                  Get(r[j], "quantity") == Num(NumberOr(quantity, 0.0))
                  && forall key :: key != "quantity" ==> Get(r[j], key) == Get(items[j], key))
            && (forall j :: 0 <= j < |items| && IdOf(items[j]) != id ==> r[j] == items[j])
  {
  }

  // ---------------------------------------------------------------------
  // Positive quantities
  // ---------------------------------------------------------------------

  /** Every line's quantity is a number above 0. */
  predicate PositiveQuantities(items: seq<Record>)
  {
    forall i :: 0 <= i < |items| ==> Get(items[i], "quantity").Num? && Get(items[i], "quantity").x > 0.0
  }

  /** A quantity a product may carry without breaking positivity. */
  predicate PositiveOrAbsentQuantity(product: Record)
  {
    "quantity" !in product || (product["quantity"].Num? && product["quantity"].x > 0.0)
  }

  /** Removing a line and clearing the cart keep every quantity positive. */
  lemma RemoveKeepsPositiveQuantities(items: seq<Record>, id: Value)
    requires PositiveQuantities(items)
    ensures PositiveQuantities(WithoutId(items, id))
    ensures PositiveQuantities([])
  {
    var r := WithoutId(items, id);
    forall i | 0 <= i < |r| ensures Get(r[i], "quantity").Num? && Get(r[i], "quantity").x > 0.0 {
      WithoutIdKeepsOnlyInputs(items, id, r[i]);
    }
  }

  /** `updateQuantity` keeps every quantity positive: a quantity that is not
      positive removes the line instead of being stored. */
  lemma UpdateKeepsPositiveQuantities(items: seq<Record>, id: Value, quantity: Value)
    requires PositiveQuantities(items)
    ensures PositiveQuantities(UpdateQuantityIn(items, id, quantity))
  {
    if NumberOr(quantity, 0.0) <= 0.0 {
      RemoveKeepsPositiveQuantities(items, id);
    }
  }

  /** `addItem` with a positive quantity, of a product without a quantity
      field or with a positive one, keeps every quantity positive. */
  lemma AddKeepsPositiveQuantities(items: seq<Record>, product: Record, q: real)
    requires PositiveQuantities(items)
    requires q > 0.0 && PositiveOrAbsentQuantity(product)
    ensures PositiveQuantities(AddItemTo(items, product, Num(q)))
  {
    if Truthy(IdOf(product)) {
      var toAdd := Normalize(product, Num(q));
      assert Get(toAdd, "quantity").Num? && Get(toAdd, "quantity").x > 0.0;
      var k := FindIndex(items, IdOf(toAdd));
      if k >= 0 {
        var had := Get(items[k], "quantity");
        assert NumberOr(had, 0.0) == had.x;
        assert AddedQuantity(toAdd) == Get(toAdd, "quantity").x;
        assert Get(Merge(items[k], toAdd), "quantity") == Num(had.x + AddedQuantity(toAdd));
      }
    }
  }

  /** With every quantity positive, a non-empty cart counts more than 0 items. */
  lemma {:induction false} PositiveQuantitiesCount(items: seq<Record>)
    requires PositiveQuantities(items)
    ensures TotalItems(items) >= 0.0
    ensures items != [] ==> TotalItems(items) > 0.0
  {
    if items != [] {
      var last := items[|items| - 1];
      assert LineQuantity(last) == Get(last, "quantity").x;
      PositiveQuantitiesCount(items[..|items| - 1]);
    }
  }

  /** `addItem` does not keep quantities positive in general: a negative
      quantity opens a line of that quantity, and one that cancels the
      line's quantity leaves a line of quantity 0 in the cart. */
  lemma NonPositiveAddsKeepLines()
    ensures var r := AddItemTo([], map["id" := Num(1.0)], Num(-2.0));
            |r| == 1 && Get(r[0], "quantity") == Num(-2.0)
    ensures var r := AddItemTo([map["id" := Num(1.0), "quantity" := Num(2.0)]], map["id" := Num(1.0)], Num(-2.0));
            |r| == 1 && Get(r[0], "quantity") == Num(0.0)
  {
    var p := map["id" := Num(1.0)];
    AddNewAppends([], p, Num(-2.0));
    assert Get(Normalize(p, Num(-2.0)), "quantity") == Num(-2.0);
    var line := map["id" := Num(1.0), "quantity" := Num(2.0)];
    AddExistingMerges([line], p, Num(-2.0), 0);
    assert NumberOr(Get(line, "quantity"), 0.0) == 2.0;
    assert AddedQuantity(Normalize(p, Num(-2.0))) == -2.0;
  }

  // ---------------------------------------------------------------------
  // Selectors
  // ---------------------------------------------------------------------

  /** `Number(it.quantity) || 0`. */
  function LineQuantity(it: Record): real
  {
    NumberOr(Get(it, "quantity"), 0.0)
  }

  /** `(Number(it.price) || 0) * (Number(it.quantity) || 0)`. */
  function LinePrice(it: Record): real
  {
    NumberOr(Get(it, "price"), 0.0) * NumberOr(Get(it, "quantity"), 0.0)
  }

  /** `getTotalItems`: the left-to-right `reduce` over the items. */
  function TotalItems(items: seq<Record>): (n: real)
    ensures (forall i :: 0 <= i < |items| ==> LineQuantity(items[i]) >= 0.0) ==> n >= 0.0
  {
    if items == [] then 0.0 else TotalItems(items[..|items| - 1]) + LineQuantity(items[|items| - 1])
  }

  /** `getTotalPrice`: the left-to-right `reduce` over the items. */
  function TotalPrice(items: seq<Record>): (sum: real)
    ensures (forall i :: 0 <= i < |items| ==> LinePrice(items[i]) >= 0.0) ==> sum >= 0.0
  {
    if items == [] then 0.0 else TotalPrice(items[..|items| - 1]) + LinePrice(items[|items| - 1])
  }

  /** Both selectors are 0 on the empty cart, hence right after `clearCart`. */
  lemma EmptyCartTotals()
    ensures TotalItems([]) == 0.0 && TotalPrice([]) == 0.0
  {
  }

  /** Adding a product to the empty cart and then a record with the same
      id and its own quantity and price gives one line: the quantities add
      up and the second record's price wins. */
  lemma SecondAddMerges(p1: Record, p2: Record)
    requires Truthy(IdOf(p1)) && IdOf(p2) == IdOf(p1)
    requires "quantity" in p1 && "quantity" in p2 && "price" in p2
    ensures var cart := AddItemTo(AddItemTo([], p1, Undefined), p2, Undefined);
            && |cart| == 1
            && Get(cart[0], "quantity") == Num(NumberOr(p1["quantity"], 0.0) + NumberOr(p2["quantity"], 1.0))
            && Get(cart[0], "price") == p2["price"]
  {
    AddNewAppends([], p1, Undefined);
    var t1 := Normalize(p1, Num(1.0));
    var c1 := AddItemTo([], p1, Undefined);
    assert c1 == [t1] && IdOf(t1) == IdOf(p1);
    AddExistingMerges(c1, p2, Undefined, 0);
  }

  /** A one-line cart counts that line's quantity and price. */
  lemma SingleLineTotals(items: seq<Record>)
    requires |items| == 1
    ensures TotalItems(items) == LineQuantity(items[0]) && TotalPrice(items) == LinePrice(items[0])
  {
    assert items[..0] == [];
  }

  /** Both selectors add up over a concatenation. */
  lemma {:induction false} TotalsAppend(a: seq<Record>, b: seq<Record>)
    ensures TotalItems(a + b) == TotalItems(a) + TotalItems(b)
    ensures TotalPrice(a + b) == TotalPrice(a) + TotalPrice(b)
  {
    TotalItemsAppend(a, b);
    TotalPriceAppend(a, b);
  }

  lemma {:induction false} TotalItemsAppend(a: seq<Record>, b: seq<Record>)
    ensures TotalItems(a + b) == TotalItems(a) + TotalItems(b)
  {
    if b == [] {
      assert a + b == a;
    } else {
      TotalItemsAppend(a, b[..|b| - 1]);
      assert (a + b)[..|a + b| - 1] == a + b[..|b| - 1];
      assert (a + b)[|a + b| - 1] == b[|b| - 1];
    }
  }

  lemma {:induction false} TotalPriceAppend(a: seq<Record>, b: seq<Record>)
    ensures TotalPrice(a + b) == TotalPrice(a) + TotalPrice(b)
  {
    if b == [] {
      assert a + b == a;
    } else {
      TotalPriceAppend(a, b[..|b| - 1]);
      assert (a + b)[..|a + b| - 1] == a + b[..|b| - 1];
      assert (a + b)[|a + b| - 1] == b[|b| - 1];
    }
  }

  /** Replacing one entry changes each selector by that entry's contribution. */
  lemma TotalsUpdateAt(items: seq<Record>, k: nat, x: Record)
    requires k < |items|
    ensures TotalItems(items[k := x]) == TotalItems(items) - LineQuantity(items[k]) + LineQuantity(x)
    ensures TotalPrice(items[k := x]) == TotalPrice(items) - LinePrice(items[k]) + LinePrice(x)
  {
    var pre, post := items[..k], items[k + 1..];
    assert items == pre + [items[k]] + post;
    assert items[k := x] == pre + [x] + post;
    TotalsAppend(pre, [items[k]]);
    TotalsAppend(pre + [items[k]], post);
    TotalsAppend(pre, [x]);
    TotalsAppend(pre + [x], post);
    assert TotalItems([x]) == LineQuantity(x) by { assert [x][..0] == []; }
    assert TotalItems([items[k]]) == LineQuantity(items[k]) by { assert [items[k]][..0] == []; }
    assert TotalPrice([x]) == LinePrice(x) by { assert [x][..0] == []; }
    assert TotalPrice([items[k]]) == LinePrice(items[k]) by { assert [items[k]][..0] == []; }
  }

  /** `addItem` raises the item count by the amount merged into an existing
      line, or by the new line's own count. */
  lemma TotalItemsAfterAdd(items: seq<Record>, product: Record, quantity: Value)
    requires Truthy(IdOf(product))
    ensures var toAdd := Normalize(product, QuantityArg(quantity));
            TotalItems(AddItemTo(items, product, quantity)) ==
              TotalItems(items) + if FindIndex(items, IdOf(product)) >= 0 then AddedQuantity(toAdd) else LineQuantity(toAdd)
  {
    var toAdd := Normalize(product, QuantityArg(quantity));
    assert IdOf(toAdd) == IdOf(product);
    var k := FindIndex(items, IdOf(product));
    if k >= 0 {
      TotalsUpdateAt(items, k, Merge(items[k], toAdd));
    } else {
      TotalsAppend(items, [toAdd]);
      assert [toAdd][..0] == [];
    }
  }

  /** `addItem(product, q1)`, ..., `addItem(product, qn)` from the left. */
  function AddAll(items: seq<Record>, product: Record, qs: seq<real>): seq<Record>
  {
    if qs == [] then items
    else AddItemTo(AddAll(items, product, qs[..|qs| - 1]), product, Num(qs[|qs| - 1]))
  }

  ghost function Sum(qs: seq<real>): real
  {
    if qs == [] then 0.0 else Sum(qs[..|qs| - 1]) + qs[|qs| - 1]
  }

  /** The line a product occupies after it was first added behind `items`. */
  predicate SingleLineAtEnd(r: seq<Record>, items: seq<Record>, id: Value, total: real)
  {
    && |r| == |items| + 1
    && r[..|items|] == items
    && IdOf(r[|items|]) == id
    && Get(r[|items|], "quantity") == Num(total)
  }

  /** The first add of a product not in the cart opens its line at the end. */
  lemma FirstAddOpensLine(items: seq<Record>, product: Record, q: real)
    requires Truthy(IdOf(product)) && "quantity" !in product && q != 0.0
    requires forall j :: 0 <= j < |items| ==> IdOf(items[j]) != IdOf(product)
    ensures SingleLineAtEnd(AddItemTo(items, product, Num(q)), items, IdOf(product), q)
  {
    AddNewAppends(items, product, Num(q));
    var toAdd := Normalize(product, Num(q));
    assert (items + [toAdd])[..|items|] == items;
  }

  /** One more add of the same product merges into its line. */
  lemma AddMergesIntoSingleLine(items: seq<Record>, prev: seq<Record>, product: Record, q: real, total: real)
    requires Truthy(IdOf(product)) && "quantity" !in product && q != 0.0
    requires forall j :: 0 <= j < |items| ==> IdOf(items[j]) != IdOf(product)
    requires SingleLineAtEnd(prev, items, IdOf(product), total)
    ensures SingleLineAtEnd(AddItemTo(prev, product, Num(q)), items, IdOf(product), total + q)
  {
    var toAdd := Normalize(product, Num(q));
    assert IdOf(toAdd) == IdOf(product);
    assert AddedQuantity(toAdd) == q;
    assert forall j :: 0 <= j < |items| ==> prev[j] == items[j];
    assert FindIndex(prev, IdOf(product)) == |items|;
    var r := prev[|items| := Merge(prev[|items|], toAdd)];
    assert AddItemTo(prev, product, Num(q)) == r;
    assert r[..|items|] == prev[..|items|];
    assert NumberOr(Get(prev[|items|], "quantity"), 0.0) == total;
  }

  /** Repeated adds of one new product (nonzero quantities, no quantity
      field of its own) leave exactly one line for its id, at the end, whose
      quantity is the sum of the added quantities. */
  lemma {:induction false} RepeatedAddsAccumulate(items: seq<Record>, product: Record, qs: seq<real>)
    requires Truthy(IdOf(product)) && "quantity" !in product
    requires forall j :: 0 <= j < |items| ==> IdOf(items[j]) != IdOf(product)
    requires |qs| > 0 && forall j :: 0 <= j < |qs| ==> qs[j] != 0.0
    ensures SingleLineAtEnd(AddAll(items, product, qs), items, IdOf(product), Sum(qs))
  {
    var last := qs[|qs| - 1];
    var init := qs[..|qs| - 1];
    if init == [] {
      FirstAddOpensLine(items, product, last);
      assert Sum(qs) == Sum(init) + last;
    } else {
      RepeatedAddsAccumulate(items, product, init);
      AddMergesIntoSingleLine(items, AddAll(items, product, init), product, last, Sum(init));
    }
  }

  /** Adding `{id: 1, price: 10, quantity: 2}` and then
      `{id: 1, price: 10, quantity: 3}`: the products' own quantity fields
      override the default argument, giving one line of quantity 5 and a
      total price of 50. */
  lemma TwoAddsOfOneProduct()
    ensures var p1 := map["id" := Num(1.0), "price" := Num(10.0), "quantity" := Num(2.0)];
            var p2 := map["id" := Num(1.0), "price" := Num(10.0), "quantity" := Num(3.0)];
            var cart := AddItemTo(AddItemTo([], p1, Undefined), p2, Undefined);
            |cart| == 1 && Get(cart[0], "quantity") == Num(5.0) && TotalItems(cart) == 5.0 && TotalPrice(cart) == 50.0
  {
    var p1 := map["id" := Num(1.0), "price" := Num(10.0), "quantity" := Num(2.0)];
    var p2 := map["id" := Num(1.0), "price" := Num(10.0), "quantity" := Num(3.0)];
    SecondAddMerges(p1, p2);
    var cart := AddItemTo(AddItemTo([], p1, Undefined), p2, Undefined);
    SingleLineTotals(cart);
    assert NumberOr(Num(2.0), 0.0) + NumberOr(Num(3.0), 1.0) == 5.0;
    assert LinePrice(cart[0]) == 10.0 * 5.0;
  }

  // ---------------------------------------------------------------------
  // The store
  // ---------------------------------------------------------------------

  /** The provider's `items` state together with the local storage it is
      mirrored to.  `writable` says whether `localStorage.setItem` succeeds. */
  class CartStore {
    var items: seq<Record>
    var storage: Storage
    const writable: bool

    /** With writable storage, `cart` holds exactly the current items, so
        by `StoredCartReloads` a reload at any moment restores them and
        writes nothing. */
    predicate Valid()
      reads this
    {
      writable ==> CartKey in storage && storage[CartKey] == Arr(items)
    }

    /** `useState(() => readLocalCart())`, then the persistence effect's
        first run, which writes the loaded items back. */
    constructor (st: Storage, writable: bool)
      ensures this.writable == writable
      ensures items == RehydratedCart(st, writable).items
      ensures storage == Persisted(RehydratedCart(st, writable).storage, items, writable)
      ensures Valid()
    {
      this.writable := writable;
      var loaded, st' := ReadLocalCart(st, writable);
      items := loaded;
      storage := Persisted(st', loaded, writable);
    }

    /** The persistence effect, run after every change of `items`. */
    method Persist()
      modifies this`storage
      ensures storage == Persisted(old(storage), items, writable)
      ensures Valid()
    {
      if writable {
        storage := storage[CartKey := Arr(items)];
      }
    }

    /** `addItem(product, quantity)`; a product without a truthy id returns
        before any state change, so nothing is persisted either. */
    method AddItem(product: Record, quantity: Value)
      modifies this
      ensures items == AddItemTo(old(items), product, quantity)
      ensures storage == if Truthy(IdOf(product)) then Persisted(old(storage), items, writable) else old(storage)
      ensures old(Valid()) || Truthy(IdOf(product)) ==> Valid()
    {
      if !Truthy(IdOf(product)) {
        return;
      }
      var toAdd := Normalize(product, QuantityArg(quantity));
      var idx := FindIndex(items, IdOf(toAdd));
      if idx >= 0 {
        var copy := items;
        copy := copy[idx := Merge(copy[idx], toAdd)];
        items := copy;
      } else {
        items := items + [toAdd];
      }
      Persist();
    }

    /** `removeItem(id)`. */
    method RemoveItem(id: Value)
      modifies this
      ensures items == WithoutId(old(items), id)
      ensures storage == Persisted(old(storage), items, writable)
      ensures Valid()
    {
      items := WithoutId(items, id);
      Persist();
    }

    /** `updateQuantity(id, quantity)`. */
    method UpdateQuantity(id: Value, quantity: Value)
      modifies this
      ensures items == UpdateQuantityIn(old(items), id, quantity)
      ensures storage == Persisted(old(storage), items, writable)
      ensures Valid()
    {
      var q := NumberOr(quantity, 0.0);
      if q <= 0.0 {
        RemoveItem(id);
        return;
      }
      items := SetFieldWhereId(items, id, "quantity", Num(q));
      Persist();
    }

    /** `clearCart()`. */
    method ClearCart()
      modifies this
      ensures items == []
      ensures storage == Persisted(old(storage), [], writable)
      ensures Valid()
    {
      items := [];
      Persist();
    }
  }
}
