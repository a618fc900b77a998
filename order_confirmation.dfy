/** The order lookup and the delivery texts of `pages/OrderConfirmationPage.jsx`. */
module OrderConfirmation {
  import opened JsValues
  import opened Records
  import CheckoutPage

  /** The lookup effect: with a non-empty order list and a truthy route
      parameter, the shown order becomes the first order whose id is
      strictly equal to it (none if there is no such order); otherwise the
      shown order stays what it was. */
  function ShownOrder(orders: seq<Record>, orderId: Value, current: Option<Record>): (r: Option<Record>)
    ensures !(|orders| > 0 && Truthy(orderId)) ==> r == current
    ensures |orders| > 0 && Truthy(orderId) ==>
              (r.Some? <==> exists j :: 0 <= j < |orders| && IdOf(orders[j]) == orderId)
    ensures |orders| > 0 && Truthy(orderId) && r.Some? ==> r.value in orders && IdOf(r.value) == orderId
    ensures |orders| > 0 && Truthy(orderId) && r.Some? ==>
              exists k :: 0 <= k < |orders| && orders[k] == r.value && forall j :: 0 <= j < k ==> IdOf(orders[j]) != orderId
  {
    if |orders| > 0 && Truthy(orderId) then FindById(orders, orderId) else current
  }

  /** The route parameter is a string and the comparison is strict, so an
      order whose id is stored as a number is never found. */
  lemma NumericIdsNeverMatchRoute(orders: seq<Record>, routeId: string)
    requires forall j :: 0 <= j < |orders| ==> IdOf(orders[j]).Num?
    ensures ShownOrder(orders, Str(routeId), None) == None
  {
    if |orders| > 0 && Truthy(Str(routeId)) {
      assert forall j :: 0 <= j < |orders| ==> IdOf(orders[j]) != Str(routeId);
    }
  }

  /** `getDeliveryMethodName(method)`: the three known ids by name, any
      other value unchanged. */
  function DeliveryMethodName(deliveryMethod: Value): (n: Value)
    ensures deliveryMethod !in {Str("domicile"), Str("point_relais"), Str("express")} ==> n == deliveryMethod
  {
    match deliveryMethod
    case Str("domicile") => Str("Livraison à domicile")
    case Str("point_relais") => Str("Point Relais Mondial Relay")
    case Str("express") => Str("Livraison Express")
    case _ => deliveryMethod
  }

  /** The names shown here are the names of the checkout's delivery tiers. */
  lemma MethodNamesMatchCheckout()
    ensures forall k :: 0 <= k < |CheckoutPage.DeliveryOptions| ==>
              DeliveryMethodName(Str(CheckoutPage.DeliveryOptions[k].id)) == Str(CheckoutPage.DeliveryOptions[k].name)
  {
    forall k | 0 <= k < |CheckoutPage.DeliveryOptions|
      ensures DeliveryMethodName(Str(CheckoutPage.DeliveryOptions[k].id)) == Str(CheckoutPage.DeliveryOptions[k].name)
    {
      assert k == 0 || k == 1 || k == 2;
    }
  }

  const ExpressDelay := "Livraison en 24h"
  const StandardDelay := "Livraison en 2-3 jours ouvrés"

  /** The delivery step's text: 24h exactly for express orders. */
  function DelayText(order: Record): (t: string)
    ensures t == ExpressDelay <==> Get(order, "delivery_method") == Str("express")
    ensures t != ExpressDelay ==> t == StandardDelay
  {
    if Get(order, "delivery_method") == Str("express") then ExpressDelay else StandardDelay
  }

  /** For an order placed with any tier of the checkout, the text announces
      that tier's delay. */
  lemma DelayTextMatchesCheckout()
    ensures forall k :: 0 <= k < |CheckoutPage.DeliveryOptions| ==>
              DelayText(map["delivery_method" := Str(CheckoutPage.DeliveryOptions[k].id)])
                == "Livraison en " + CheckoutPage.DeliveryOptions[k].delay
  {
    forall k | 0 <= k < |CheckoutPage.DeliveryOptions|
      ensures DelayText(map["delivery_method" := Str(CheckoutPage.DeliveryOptions[k].id)])
                == "Livraison en " + CheckoutPage.DeliveryOptions[k].delay
    {
      var o := CheckoutPage.DeliveryOptions[k];
      var order := map["delivery_method" := Str(o.id)];
      assert Get(order, "delivery_method") == Str(o.id);
      if k == 2 {
        assert o.id == "express" && o.delay == "24h";
        assert ExpressDelay == "Livraison en " + "24h";
      } else {
        assert o == CheckoutPage.DeliveryOptions[0] || o == CheckoutPage.DeliveryOptions[1];
        assert o.id != "express" && o.delay == "2-3 jours ouvrés";
        assert StandardDelay == "Livraison en " + "2-3 jours ouvrés";
      }
    }
  }
}
