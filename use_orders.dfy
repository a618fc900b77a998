/** The `orders` list of the `useOrders` hook and how each action changes it
    once the backend has answered. */
module UseOrders {
  import opened JsValues
  import opened Records
  import opened Remote

  class OrderBook {
    var orders: seq<Record>
    var loading: bool

    /** `useState([])`, `useState(false)`. */
    constructor ()
      ensures orders == [] && !loading
    {
      orders := [];
      loading := false;
    }

    /** `fetchOrders()`: without a user nothing happens and no query is
        made; otherwise returned rows replace the list (an error is only
        logged) and loading ends false. */
    method FetchOrders(user: Option<User>, reply: ListReply) returns (queried: bool)
      modifies this
      ensures queried <==> user.Some?
      ensures user.None? ==> orders == old(orders) && loading == old(loading)
      ensures user.Some? ==> !loading
      ensures user.Some? ==> orders == if reply.data.Some? then reply.data.value else old(orders)
    {
      if user.None? {
        return false;
      }
      queried := true;
      loading := true;
      if reply.data.Some? {
        orders := reply.data.value;
      }
      loading := false;
    }

    /** `createOrder(orderData)`: without a user, the not-signed-in error and
        no insert; otherwise `{ user_id, ...orderData }` is inserted, a
        returned row is prepended, and the reply is handed back. */
    method CreateOrder(user: Option<User>, orderData: Record, reply: RowReply) returns (result: CallResult, sent: Option<Record>)
      modifies this`orders
      ensures user.None? ==> result == CallResult(None, Some(Message(NotSignedInMessage))) && sent == None
      ensures user.None? ==> orders == old(orders)
      ensures user.Some? ==> sent == Some(WithUserId(user.value.id, orderData)) && result == Passthrough(reply)
      ensures user.Some? ==> orders == if reply.data.Some? then [reply.data.value] + old(orders) else old(orders)
    {
      if user.None? {
        return CallResult(None, Some(Message(NotSignedInMessage))), None;
      }
      sent := Some(WithUserId(user.value.id, orderData));
      if reply.data.Some? {
        orders := [reply.data.value] + orders;
      }
      result := Passthrough(reply);
    }

    /** `updateOrderStatus(orderId, status)`: when a row comes back, every
        order with that id gets the new status and nothing else changes. */
    method UpdateOrderStatus(orderId: Value, status: Value, reply: RowReply) returns (result: CallResult)
      modifies this`orders
      ensures result == Passthrough(reply)
      ensures orders == if reply.data.Some? then SetFieldWhereId(old(orders), orderId, "status", status) else old(orders)
    {
      if reply.data.Some? {
        orders := SetFieldWhereId(orders, orderId, "status", status);
      }
      result := Passthrough(reply);
    }
  }

  /** What a status update does to the list: same length and ids, matching
      orders differ only in `status`, the others are untouched. */
  lemma StatusUpdateTouchesOnlyStatus(orders: seq<Record>, orderId: Value, status: Value)
    ensures var r := SetFieldWhereId(orders, orderId, "status", status);
            && IdsOf(r) == IdsOf(orders)
            && (forall i :: 0 <= i < |orders| && IdOf(orders[i]) == orderId ==>
                  Get(r[i], "status") == status && forall k :: k != "status" ==> Get(r[i], k) == Get(orders[i], k))
            && (forall i :: 0 <= i < |orders| && IdOf(orders[i]) != orderId ==> r[i] == orders[i])
  {
    SetFieldKeepsIds(orders, orderId, "status", status);
  }

  /** The inserted order carries every field of `orderData`, and the user's
      id unless `orderData` names a `user_id` of its own. */
  lemma InsertedOrderRow(userId: Value, orderData: Record)
    ensures forall k :: k in orderData ==> Get(WithUserId(userId, orderData), k) == orderData[k]
    ensures Get(WithUserId(userId, orderData), "user_id") == if "user_id" in orderData then orderData["user_id"] else userId
  {
  }
}
