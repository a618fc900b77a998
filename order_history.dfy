/** The status badge and line totals of `components/OrderHistory.jsx`. */
module OrderHistory {
  import opened JsValues

  const Completed := Str("completed")
  const Pending := Str("pending")
  const Cancelled := Str("cancelled")

  const GreenClass := "bg-green-100 text-green-800"
  const YellowClass := "bg-yellow-100 text-yellow-800"
  const RedClass := "bg-red-100 text-red-800"
  const GrayClass := "bg-gray-100 text-gray-800"

  predicate KnownStatus(status: Value)
  {
    status == Completed || status == Pending || status == Cancelled
  }

  /** `getStatusColor(status)`: each known status has its own class, every
      other value the gray one. */
  function StatusColor(status: Value): (c: string)
    ensures KnownStatus(status) <==> c != GrayClass
    ensures c in {GreenClass, YellowClass, RedClass, GrayClass}
  {
    if status == Completed then GreenClass
    else if status == Pending then YellowClass
    else if status == Cancelled then RedClass
    else GrayClass
  }

  /** `getStatusText(status)`: French labels for the known statuses, and
      any other value shown as it is. */
  function StatusText(status: Value): (t: Value)
    ensures !KnownStatus(status) ==> t == status
    ensures status == Completed ==> t == Str("Terminée")
    ensures status == Pending ==> t == Str("En cours")
    ensures status == Cancelled ==> t == Str("Annulée")
  {
    if status == Completed then Str("Terminée")
    else if status == Pending then Str("En cours")
    else if status == Cancelled then Str("Annulée")
    else status
  }

  /** Distinct known statuses get distinct classes and distinct labels. */
  lemma KnownStatusesDistinguished(s: Value, t: Value)
    requires KnownStatus(s) && KnownStatus(t) && s != t
    ensures StatusColor(s) != StatusColor(t)
    ensures StatusText(s) != StatusText(t)
  {
  }

  /** A status that happens to be a label is shown like the status it names. */
  lemma LabelsCollideWithRawText()
    ensures StatusText(Str("Terminée")) == StatusText(Completed)
    ensures Str("Terminée") != Completed
  {
  }

  /** `item.price_at_order * item.quantity`; `None` is NaN (either factor
      is not numeric).  Unlike the cart's selectors there is no `|| 0`. */
  function LineTotal(item: Record): (r: Option<real>)
    ensures r.Some? <==> ToNumber(Get(item, "price_at_order")).Some? && ToNumber(Get(item, "quantity")).Some?
    ensures r.Some? ==> r.value == ToNumber(Get(item, "price_at_order")).value * ToNumber(Get(item, "quantity")).value
  {
    match (ToNumber(Get(item, "price_at_order")), ToNumber(Get(item, "quantity")))
    case (Some(p), Some(q)) => Some(p * q)
    case _ => None
  }

  /** For numeric fields the line total is price times quantity; a missing
      quantity makes it NaN rather than 0. */
  lemma LineTotalCases(p: real, q: real)
    ensures LineTotal(map["price_at_order" := Num(p), "quantity" := Num(q)]) == Some(p * q)
    ensures LineTotal(map["price_at_order" := Num(p)]) == None
  {
    var item := map["price_at_order" := Num(p), "quantity" := Num(q)];
    assert Get(item, "price_at_order") == Num(p);
    assert Get(item, "quantity") == Num(q);
    assert LineTotal(item).Some?;
    assert LineTotal(item).value == p * q;
  }
}
