/** The decision logic of `pages/CheckoutPage.jsx`: address preselection,
    the delivery tiers and the order total, and `handleSubmit`, which
    resolves the shipping address, builds the order record, hands it to
    `createOrder` and clears the cart only when that call reports no error. */
module CheckoutPage {
  import opened JsValues
  import opened Records
  import opened Remote
  import CartContext
  import UseOrders

  datatype DeliveryOption = DeliveryOption(id: string, name: string, description: string, price: real, delay: string)

  /** The `deliveryOptions` table. */
  const DeliveryOptions: seq<DeliveryOption> := [
    DeliveryOption("domicile", "Livraison à domicile", "Livraison standard à votre domicile", 4.99, "2-3 jours ouvrés"),
    DeliveryOption("point_relais", "Point Relais Mondial Relay", "Retrait dans un point relais près de chez vous", 3.99, "2-3 jours ouvrés"),
    DeliveryOption("express", "Livraison Express", "Livraison rapide en 24h", 9.99, "24h")
  ]

  /** `deliveryOptions.find(o => o.id === deliveryMethod)`. */
  function FindOption(options: seq<DeliveryOption>, methodId: string): (o: Option<DeliveryOption>)
    ensures o.Some? ==> o.value in options && o.value.id == methodId
    ensures o.None? <==> forall k :: 0 <= k < |options| ==> options[k].id != methodId
    ensures o.Some? ==> exists k :: 0 <= k < |options| && options[k] == o.value && forall j :: 0 <= j < k ==> options[j].id != methodId
  {
    if options == [] then None
    else if options[0].id == methodId then Some(options[0])
    else
      var o := FindOption(options[1..], methodId);
      if o.Some? then
        ghost var k :| 0 <= k < |options[1..]| && options[1..][k] == o.value && forall j :: 0 <= j < k ==> options[1..][j].id != methodId;
        assert options[k + 1] == o.value;
        o
      else o
  }

  /** `selectedDeliveryOption?.price || 0`. */
  function DeliveryPrice(methodId: string): (p: real)
    ensures p in {0.0, 4.99, 3.99, 9.99}
  {
    match FindOption(DeliveryOptions, methodId)
    case None => 0.0
    case Some(o) => o.price
  }

  /** `subtotal + deliveryPrice`, the subtotal being the cart's `getTotalPrice()`. */
  function OrderTotal(items: seq<Record>, methodId: string): (total: real)
    ensures CartContext.TotalPrice(items) <= total <= CartContext.TotalPrice(items) + 9.99
    ensures total == CartContext.TotalPrice(items) <==> forall k :: 0 <= k < |DeliveryOptions| ==> DeliveryOptions[k].id != methodId
  {
    FreeExactlyWhenUnknown(methodId);
    CartContext.TotalPrice(items) + DeliveryPrice(methodId)
  }

  /** The tier ids are pairwise distinct. */
  lemma TierIdsDistinct(i: nat, j: nat)
    requires i < |DeliveryOptions| && j < |DeliveryOptions|
    ensures DeliveryOptions[i].id == DeliveryOptions[j].id ==> i == j
  {
    assert DeliveryOptions[0].id[0] == 'd' && DeliveryOptions[1].id[0] == 'p' && DeliveryOptions[2].id[0] == 'e';
  }

  /** The price looked up for a tier's id is that tier's price. */
  lemma TierPrice(k: nat)
    requires k < |DeliveryOptions|
    ensures DeliveryPrice(DeliveryOptions[k].id) == DeliveryOptions[k].price
  {
    var o := FindOption(DeliveryOptions, DeliveryOptions[k].id);
    assert o.Some?;
    var j :| 0 <= j < |DeliveryOptions| && DeliveryOptions[j] == o.value;
    TierIdsDistinct(j, k);
  }

  /** Each tier costs its table price, and any other method id costs 0. */
  lemma DeliveryPrices(methodId: string)
    ensures DeliveryPrice("domicile") == 4.99
    ensures DeliveryPrice("point_relais") == 3.99
    ensures DeliveryPrice("express") == 9.99
    ensures methodId != "domicile" && methodId != "point_relais" && methodId != "express" ==> DeliveryPrice(methodId) == 0.0
    ensures forall k :: 0 <= k < |DeliveryOptions| ==> DeliveryPrice(DeliveryOptions[k].id) == DeliveryOptions[k].price
  {
    forall k | 0 <= k < |DeliveryOptions|
      ensures DeliveryPrice(DeliveryOptions[k].id) == DeliveryOptions[k].price
    {
      TierPrice(k);
    }
    TierPrice(0);
    TierPrice(1);
    TierPrice(2);
    if methodId != "domicile" && methodId != "point_relais" && methodId != "express" {
      UnknownMethodIsFree(methodId);
    }
  }

  /** A method id outside the table finds no tier. */
  lemma UnknownMethodIsFree(methodId: string)
    requires methodId != "domicile" && methodId != "point_relais" && methodId != "express"
    ensures DeliveryPrice(methodId) == 0.0
  {
    forall k | 0 <= k < |DeliveryOptions|
      ensures DeliveryOptions[k].id != methodId
    {
      assert k == 0 || k == 1 || k == 2;
    }
  }

  /** Delivery is free exactly for a method id that is not in the table:
      every tier has a non-zero price. */
  lemma FreeExactlyWhenUnknown(methodId: string)
    ensures DeliveryPrice(methodId) == 0.0 <==> forall k :: 0 <= k < |DeliveryOptions| ==> DeliveryOptions[k].id != methodId
  {
    var o := FindOption(DeliveryOptions, methodId);
    if o.Some? {
      assert o.value in DeliveryOptions;
      assert o.value.price > 0.0;
    }
  }

  /** A cart of one book at 24.90 with home delivery totals 29.89. */
  lemma CheckoutTotalExample()
    ensures OrderTotal([map["id" := Num(1.0), "price" := Num(24.90), "quantity" := Num(1.0)]], "domicile") == 29.89
  {
    var items := [map["id" := Num(1.0), "price" := Num(24.90), "quantity" := Num(1.0)]];
    assert items[..0] == [];
    assert CartContext.LinePrice(items[0]) == 24.90;
    DeliveryPrices("domicile");
  }

  // ---------------------------------------------------------------------
  // Addresses
  // ---------------------------------------------------------------------

  predicate IsDefault(a: Record)
  {
    Truthy(Get(a, "is_default"))
  }

  function FirstDefaultIndex(addresses: seq<Record>): (k: int)
    ensures -1 <= k < |addresses|
    ensures k >= 0 ==> IsDefault(addresses[k]) && forall j :: 0 <= j < k ==> !IsDefault(addresses[j])
    ensures k == -1 <==> forall j :: 0 <= j < |addresses| ==> !IsDefault(addresses[j])
  {
    if addresses == [] then -1
    else if IsDefault(addresses[0]) then 0
    else
      var k := FirstDefaultIndex(addresses[1..]);
      if k == -1 then -1 else k + 1
  }

  /** The preselection effect: the id of the first default address, else
      of the first address, else `''`. */
  function PreselectedAddress(addresses: seq<Record>): (id: Value)
    ensures addresses == [] ==> id == Str("")
    ensures forall k :: 0 <= k < |addresses| && IsDefault(addresses[k]) && (forall j :: 0 <= j < k ==> !IsDefault(addresses[j])) ==>
              id == IdOf(addresses[k])
    ensures addresses != [] && (forall j :: 0 <= j < |addresses| ==> !IsDefault(addresses[j])) ==> id == IdOf(addresses[0])
  {
    if |addresses| > 0 then
      var k := FirstDefaultIndex(addresses);
      IdOf(if k >= 0 then addresses[k] else addresses[0])
    else Str("")
  }

  /** A manually entered address counts only with street, city and postal code. */
  predicate AddressComplete(a: Record)
  {
    Truthy(Get(a, "street")) && Truthy(Get(a, "city")) && Truthy(Get(a, "postal_code"))
  }

  /** `finalShippingAddress`: the saved address with the selected id, if a
      selection is made and found; otherwise the manual address if complete. */
  function ResolveShippingAddress(selected: Value, addresses: seq<Record>, newAddress: Record): (r: Option<Record>)
    ensures Truthy(selected) && (exists j :: 0 <= j < |addresses| && IdOf(addresses[j]) == selected) ==>
              r.Some? && r.value in addresses && IdOf(r.value) == selected
    ensures Truthy(selected) && (exists j :: 0 <= j < |addresses| && IdOf(addresses[j]) == selected) ==>
              exists k :: 0 <= k < |addresses| && addresses[k] == r.value && forall j :: 0 <= j < k ==> IdOf(addresses[j]) != selected
    ensures (!Truthy(selected) || forall j :: 0 <= j < |addresses| ==> IdOf(addresses[j]) != selected) ==>
              r == if AddressComplete(newAddress) then Some(newAddress) else None
    ensures r.None? <==> !AddressComplete(newAddress) && (!Truthy(selected) || forall j :: 0 <= j < |addresses| ==> IdOf(addresses[j]) != selected)
  {
    var saved := if Truthy(selected) then FindById(addresses, selected) else None;
    if saved.Some? then saved
    else if AddressComplete(newAddress) then Some(newAddress)
    else None
  }

  /** The `orderData` object literal, over already computed values. */
  function OrderRecord(total: real, price: real, shipping: Record, deliveryMethod: string, paymentMethod: string): (r: Record)
    ensures r.Keys == {"total_amount", "status", "shipping_address", "delivery_method", "delivery_price", "payment_method"}
    ensures Get(r, "status") == Str("pending")
    ensures Get(r, "total_amount") == Num(total) && Get(r, "delivery_price") == Num(price)
    ensures Get(r, "shipping_address") == Rec(shipping)
    ensures Get(r, "delivery_method") == Str(deliveryMethod) && Get(r, "payment_method") == Str(paymentMethod)
  {
    map["total_amount" := Num(total),
        "status" := Str("pending"),
        "shipping_address" := Rec(shipping),
        "delivery_method" := Str(deliveryMethod),
        "delivery_price" := Num(price),
        "payment_method" := Str(paymentMethod)]
  }

  /** The `orderData` record: the order total and the delivery price of the
      chosen method, status pending. */
  function OrderData(items: seq<Record>, shipping: Record, deliveryMethod: string, paymentMethod: string): (r: Record)
    ensures r.Keys == {"total_amount", "status", "shipping_address", "delivery_method", "delivery_price", "payment_method"}
    ensures Get(r, "status") == Str("pending")
    ensures Get(r, "delivery_price") == Num(DeliveryPrice(deliveryMethod))
    ensures Get(r, "total_amount") == Num(OrderTotal(items, deliveryMethod))
    ensures Get(r, "total_amount") == Num(CartContext.TotalPrice(items) + DeliveryPrice(deliveryMethod))
    ensures Get(r, "shipping_address") == Rec(shipping)
    ensures Get(r, "delivery_method") == Str(deliveryMethod) && Get(r, "payment_method") == Str(paymentMethod)
  {
    OrderRecord(OrderTotal(items, deliveryMethod), DeliveryPrice(deliveryMethod), shipping, deliveryMethod, paymentMethod)
  }

  /** How a submission ends.  `FailedAfterClearing`: `createOrder`
      reported no error but returned no row, so reading `order.id` throws
      after the cart was already cleared. */
  datatype SubmitOutcome = RedirectToLogin | MissingAddress | OrderFailed | Confirmed(orderId: Value) | FailedAfterClearing

  /** The page's form state. */
  class CheckoutForm {
    var selectedAddress: Value
    var deliveryMethod: string
    var paymentMethod: string
    var newAddress: Record
    var loading: bool

    constructor ()
      ensures selectedAddress == Str("") && deliveryMethod == "domicile" && paymentMethod == "card" && !loading
      ensures newAddress == map["street" := Str(""), "city" := Str(""), "postal_code" := Str(""), "country" := Str("France")]
    {
      selectedAddress := Str("");
      deliveryMethod := "domicile";
      paymentMethod := "card";
      newAddress := map["street" := Str(""), "city" := Str(""), "postal_code" := Str(""), "country" := Str("France")];
      loading := false;
    }

    /** The preselection effect, run when the address list changes. */
    method PreselectAddress(addresses: seq<Record>)
      modifies this`selectedAddress
      ensures selectedAddress == PreselectedAddress(addresses)
    {
      if |addresses| > 0 {
        var k := FirstDefaultIndex(addresses);
        selectedAddress := IdOf(if k >= 0 then addresses[k] else addresses[0]);
      } else {
        selectedAddress := Str("");
      }
    }

    /** `handleSubmit`.  `reply` is what the backend answers to the insert;
        `sent` is the row `createOrder` inserts, if it gets that far. */
    method HandleSubmit(user: Option<User>, addresses: seq<Record>, cart: CartContext.CartStore,
                        orders: UseOrders.OrderBook, reply: RowReply)
      returns (outcome: SubmitOutcome, sent: Option<Record>)
      modifies this`loading, cart, orders`orders
      ensures user.None? ==> outcome == RedirectToLogin && sent == None
      ensures user.None? ==> loading == old(loading) && unchanged(cart) && unchanged(orders)
      ensures user.Some? ==> !loading
      ensures user.Some? && ResolveShippingAddress(selectedAddress, addresses, newAddress).None? ==>
                outcome == MissingAddress && sent == None && unchanged(cart) && unchanged(orders)
      ensures user.Some? && ResolveShippingAddress(selectedAddress, addresses, newAddress).Some? ==>
                && sent == Some(WithUserId(user.value.id, OrderData(old(cart.items),
                     ResolveShippingAddress(selectedAddress, addresses, newAddress).value, deliveryMethod, paymentMethod)))
                && orders.orders == (if reply.data.Some? then [reply.data.value] + old(orders.orders) else old(orders.orders))
                && (reply.error.Some? ==> outcome == OrderFailed && unchanged(cart))
                && (reply.error.None? ==>
                      && cart.items == []
                      && cart.storage == CartContext.Persisted(old(cart.storage), [], cart.writable)
                      && outcome == if reply.data.Some? then Confirmed(IdOf(reply.data.value)) else FailedAfterClearing)
      ensures outcome.Confirmed? || outcome.FailedAfterClearing? || unchanged(cart)
    {
      if user.None? {
        return RedirectToLogin, None;
      }
      loading := true;
      var shipping := ResolveShippingAddress(selectedAddress, addresses, newAddress);
      if shipping.None? {
        loading := false;
        return MissingAddress, None;
      }
      var orderData := OrderData(cart.items, shipping.value, deliveryMethod, paymentMethod);
      var result;
      result, sent := orders.CreateOrder(user, orderData, reply);
      if result.error.Some? {
        outcome := OrderFailed;
      } else {
        cart.ClearCart();
        outcome := if result.data.Some? then Confirmed(IdOf(result.data.value)) else FailedAfterClearing;
      }
      loading := false;
    }
  }
}
