/** The order endpoints (food-backend/.../controller/OrderController.java):
    reading a JSON payload into items, projecting stored orders for the client
    and dispatching a status change to a cancel or an update. */
module OrderApi {
  import opened Common
  import opened OrderStore

  /** A JSON value as the request body deserialises it. */
  datatype Json =
    | JNull
    | JString(text: string)
    | JNumber(number: real)
    | JBool(flag: bool)
    | JList(elems: seq<Json>)
    | JObject(fields: map<string, Json>)

  /** The exception a malformed payload raises while it is read: a cast of
      the wrong type, or a null that is unboxed. */
  datatype Fault = NullValue(field: string) | WrongType(field: string)

  /** The fields of a `/place` payload, once read. */
  datatype PlaceRequest = PlaceRequest(userId: Option<string>, address: Option<string>, totalAmount: real, items: seq<LineItem>)

  /** What `/place` answers: the service's reply, or an error carrying the
      message of the exception a malformed payload raised. */
  datatype PlaceResult = Replied(reply: Reply) | Faulted(fault: Fault)

  /** One order as `GET /api/order/{userId}` returns it. */
  datatype OrderView = OrderView(id: string, totalAmount: real, address: Option<string>, date: string, status: string, items: seq<StoredItem>)

  /** `map.get(key)`: the value, or null when the key is absent. */
  function Get(fields: map<string, Json>, key: string): Json
  {
    if key in fields then fields[key] else JNull
  }

  /** `(String) value`: null stays null; anything but a string fails the cast. */
  function AsString(v: Json, field: string): (r: Result<Option<string>, Fault>)
    ensures r.Success? <==> v.JNull? || v.JString?
    ensures v.JString? ==> r == Success(Some(v.text))
    ensures r.Failure? ==> r.error == WrongType(field)
  {
    match v
    case JNull => Success(None)
    case JString(t) => Success(Some(t))
    case _ => Failure(WrongType(field))
  }

  /** `((Number) value).doubleValue()`: null cannot be unboxed. */
  function AsNumber(v: Json, field: string): (r: Result<real, Fault>)
    ensures r.Success? <==> v.JNumber?
    ensures v.JNumber? ==> r.value == v.number
    ensures v.JNull? ==> r == Failure(NullValue(field))
  {
    match v
    case JNumber(n) => Success(n)
    case JNull => Failure(NullValue(field))
    case _ => Failure(WrongType(field))
  }

  /** `Number.intValue()`: drops the fraction, rounding toward zero. */
  function IntValue(x: real): (n: int)
    ensures x >= 0.0 ==> 0 <= n && n as real <= x < n as real + 1.0
    ensures x < 0.0 ==> n <= 0 && n as real - 1.0 < x <= n as real
  {
    if x >= 0.0 then x.Floor else -((-x).Floor)
  }

  /** One element of the payload's `items`, read field by field in the order
      the controller reads them; the first bad field decides the fault.  A
      null element passes the cast to `Map` and faults on its first `get`. */
  function ExtractItem(v: Json): (r: Result<LineItem, Fault>)
    ensures v.JNull? ==> r == Failure(NullValue("items"))
    ensures !v.JNull? && !v.JObject? ==> r == Failure(WrongType("items"))
    ensures r.Success? ==> v.JObject?
    ensures r.Success? ==>
              var m := v.fields;
              AsString(Get(m, "id"), "id") == Success(r.value.id) &&
              AsString(Get(m, "name"), "name") == Success(r.value.name) &&
              AsNumber(Get(m, "price"), "price") == Success(r.value.price) &&
              AsNumber(Get(m, "quantity"), "quantity").Success? &&
              r.value.quantity == IntValue(AsNumber(Get(m, "quantity"), "quantity").value) &&
              AsString(Get(m, "image"), "image") == Success(r.value.image) &&
              AsString(Get(m, "restaurant"), "restaurant") == Success(r.value.restaurant) &&
              r.value.imageUrl == None
  {
    if v.JNull? then Failure(NullValue("items"))
    else if !v.JObject? then Failure(WrongType("items"))
    else
      var m := v.fields;
      var id := AsString(Get(m, "id"), "id");
      if id.Failure? then Failure(id.error) else
      var name := AsString(Get(m, "name"), "name");
      if name.Failure? then Failure(name.error) else
      var price := AsNumber(Get(m, "price"), "price");
      if price.Failure? then Failure(price.error) else
      var quantity := AsNumber(Get(m, "quantity"), "quantity");
      if quantity.Failure? then Failure(quantity.error) else
      var image := AsString(Get(m, "image"), "image");
      if image.Failure? then Failure(image.error) else
      var restaurant := AsString(Get(m, "restaurant"), "restaurant");
      if restaurant.Failure? then Failure(restaurant.error) else
      Success(LineItem(id.value, name.value, price.value, IntValue(quantity.value), image.value, restaurant.value, None))
  }

  /** The stream over `items`: one line per element, in order, or the fault of
      the first element that cannot be read. */
  function ExtractAll(elems: seq<Json>): Result<seq<LineItem>, Fault>
  {
    if elems == [] then Success([])
    else
      var head := ExtractItem(elems[0]);
      if head.Failure? then Failure(head.error)
      else
        var tail := ExtractAll(elems[1..]);
        if tail.Failure? then tail else Success([head.value] + tail.value)
  }

  /** Reading succeeds exactly when every element can be read, and then gives
      one line per element, in the payload's order. */
  lemma {:induction false} ExtractAllPerElement(elems: seq<Json>)
    ensures ExtractAll(elems).Success? <==> forall i :: 0 <= i < |elems| ==> ExtractItem(elems[i]).Success?
    ensures ExtractAll(elems).Success? ==>
              |ExtractAll(elems).value| == |elems| &&
              forall i :: 0 <= i < |elems| ==> ExtractItem(elems[i]) == Success(ExtractAll(elems).value[i])
  {
    if elems != [] {
      ExtractAllPerElement(elems[1..]);
      if ExtractItem(elems[0]).Success? && ExtractAll(elems[1..]).Success? {
        var r := ExtractAll(elems).value;
        assert r == [ExtractItem(elems[0]).value] + ExtractAll(elems[1..]).value;
        forall i | 0 <= i < |elems|
          ensures ExtractItem(elems[i]) == Success(r[i])
        {
          if i > 0 {
            assert elems[i] == elems[1..][i - 1];
          }
        }
      } else if ExtractItem(elems[0]).Success? {
        var j :| 0 <= j < |elems[1..]| && !ExtractItem(elems[1..][j]).Success?;
        assert elems[j + 1] == elems[1..][j];
      }
    }
  }

  /** The `/place` payload: userId, address, totalAmount, then items. */
  function ExtractOrder(payload: map<string, Json>): (r: Result<PlaceRequest, Fault>)
    ensures r.Success? ==>
              AsString(Get(payload, "userId"), "userId") == Success(r.value.userId) &&
              AsString(Get(payload, "address"), "address") == Success(r.value.address) &&
              AsNumber(Get(payload, "totalAmount"), "totalAmount") == Success(r.value.totalAmount) &&
              Get(payload, "items").JList? &&
              ExtractAll(Get(payload, "items").elems) == Success(r.value.items)
    ensures Get(payload, "items").JNull? ==> r.Failure?
  {
    var userId := AsString(Get(payload, "userId"), "userId");
    if userId.Failure? then Failure(userId.error) else
    var address := AsString(Get(payload, "address"), "address");
    if address.Failure? then Failure(address.error) else
    var total := AsNumber(Get(payload, "totalAmount"), "totalAmount");
    if total.Failure? then Failure(total.error) else
    var items := Get(payload, "items");
    if items.JNull? then Failure(NullValue("items"))
    else if !items.JList? then Failure(WrongType("items"))
    else
      var lines := ExtractAll(items.elems);
      if lines.Failure? then Failure(lines.error)
      else Success(PlaceRequest(userId.value, address.value, total.value, lines.value))
  }

  /** The map `getOrders` builds for one order. */
  function View(order: Order): OrderView
  {
    OrderView(order.id, order.totalAmount, order.address, order.orderDate, order.status, order.items)
  }

  function Views(orders: seq<Order>): (r: seq<OrderView>)
    ensures |r| == |orders|
    ensures forall i :: 0 <= i < |orders| ==> r[i] == View(orders[i])
  {
    if orders == [] then [] else [View(orders[0])] + Views(orders[1..])
  }

  /** `POST /api/order/place`. */
  method PlaceOrderEndpoint(service: OrderService, payload: map<string, Json>, freshId: string, now: string)
    returns (result: PlaceResult)
    requires service.Valid()
    requires forall u :: freshId !in service.OrdersOf(u)
    requires freshId !in service.scheduled
    modifies service, service.cartService
    ensures service.Valid()
    ensures ExtractOrder(payload).Failure? ==>
              result == Faulted(ExtractOrder(payload).error) &&
              service.cartService.carts == old(service.cartService.carts) &&
              service.orders == old(service.orders) && service.scheduled == old(service.scheduled)
    ensures ExtractOrder(payload).Success? && ExtractOrder(payload).value.userId.None? ==>
              result == Replied(Reply("error", None, None)) &&
              service.cartService.carts == old(service.cartService.carts) &&
              service.orders == old(service.orders) && service.scheduled == old(service.scheduled)
    ensures ExtractOrder(payload).Success? && ExtractOrder(payload).value.userId.Some? ==>
              var req := ExtractOrder(payload).value;
              var user := req.userId.value;
              result == Replied(Reply("success", None, Some(freshId))) &&
              freshId in service.OrdersOf(user) &&
              service.OrdersOf(user)[freshId] ==
                OrderDoc(user, service.OrdersOf(user)[freshId].items, req.address, req.totalAmount, now, "Placed") &&
              |service.OrdersOf(user)[freshId].items| == |req.items| &&
              (forall i :: 0 <= i < |req.items| ==> service.OrdersOf(user)[freshId].items[i] == Stored(req.items[i])) &&
              service.orders == old(service.orders)[user := old(service.OrdersOf(user))[freshId := service.OrdersOf(user)[freshId]]] &&
              service.scheduled == old(service.scheduled)[freshId := ScheduledFor(user)] &&
              service.cartService.CartOf(user) == map[] &&
              service.cartService.carts - {user} == old(service.cartService.carts) - {user}
  {
    var request := ExtractOrder(payload);
    if request.Failure? {
      return Faulted(request.error);
    }
    var req := request.value;
    if req.userId.None? {
      // `placeOrder(null, ...)`: the service's own catch answers once the
      // null id reaches the storage client, before anything is written.
      return Replied(Reply("error", None, None));
    }
    var reply := service.PlaceOrder(req.userId.value, req.items, req.address, req.totalAmount, freshId, now);
    result := Replied(reply);
  }

  /** `GET /api/order/{userId}`: every stored order of the user, each once, as
      the client sees it. */
  method GetOrdersEndpoint(service: OrderService, userId: string) returns (views: seq<OrderView>)
    ensures forall i :: 0 <= i < |views| ==>
              views[i].id in service.OrdersOf(userId) &&
              views[i] == View(AsOrder(views[i].id, service.OrdersOf(userId)[views[i].id]))
    ensures forall i, j :: 0 <= i < j < |views| ==> views[i].id != views[j].id
    ensures forall k :: k in service.OrdersOf(userId) ==> exists i :: 0 <= i < |views| && views[i].id == k
  {
    var orders := service.GetOrdersByUser(userId);
    views := Views(orders);
    forall k | k in service.OrdersOf(userId)
      ensures exists i :: 0 <= i < |views| && views[i].id == k
    {
      var i :| 0 <= i < |orders| && orders[i].id == k;
      assert views[i].id == k;
    }
  }

  /** `PUT /api/order/update-status/{userId}/{orderId}`: "Cancelled" in any
      case goes to `cancelOrder`, and the reply says the order was cancelled
      whether or not `cancelOrder` refused; any other status goes to
      `updateOrderStatus`. */
  method UpdateStatusEndpoint(service: OrderService, userId: string, orderId: string, newStatus: string)
    returns (reply: Reply)
    requires service.Valid()
    modifies service
    ensures service.Valid()
    ensures IsCancelled(newStatus) ==>
              reply == Reply("success", Some("Order cancelled successfully"), None) &&
              (CancelRefusal(old(service.OrdersOf(userId)), orderId).Some? ==>
                 service.orders == old(service.orders) && service.scheduled == old(service.scheduled)) &&
              (CancelRefusal(old(service.OrdersOf(userId)), orderId).None? ==>
                 orderId in service.OrdersOf(userId) &&
                 service.OrdersOf(userId)[orderId] == old(service.OrdersOf(userId))[orderId].(status := "Cancelled") &&
                 service.orders == old(service.orders)[userId := old(service.OrdersOf(userId))[orderId := old(service.OrdersOf(userId))[orderId].(status := "Cancelled")]] &&
                 service.scheduled == old(service.scheduled) - {orderId})
    ensures !IsCancelled(newStatus) ==>
              reply == Reply("success", Some("Order status updated successfully"), None) &&
              service.orders == StatusUpdated(old(service.orders), userId, orderId, newStatus) &&
              service.scheduled == old(service.scheduled)
  {
    if IsCancelled(newStatus) {
      var ignored := service.CancelOrder(userId, orderId);
      return Reply("success", Some("Order cancelled successfully"), None);
    }
    service.UpdateOrderStatus(userId, orderId, newStatus);
    reply := Reply("success", Some("Order status updated successfully"), None);
  }
}
