/** Orders and their simulated delivery lifecycle
    (food-backend/.../service/OrderService.java).  Each user's `orders`
    collection is a map from order id to document; the scheduler is the list
    of status updates still pending for each order, in firing order. */
module OrderStore {
  import opened Common
  import CartStore

  /** The `CartItem` bean as `placeOrder` receives it; Java's nullable strings
      are `Option`s. */
  datatype LineItem = LineItem(
    id: Option<string>,
    name: Option<string>,
    price: real,
    quantity: int,
    image: Option<string>,
    restaurant: Option<string>,
    imageUrl: Option<string>)

  /** One entry of an order document's `items` list. */
  datatype StoredItem = StoredItem(id: Option<string>, name: Option<string>, price: real, quantity: int, image: Option<string>)

  /** An order document. */
  datatype OrderDoc = OrderDoc(
    userId: string,
    items: seq<StoredItem>,
    address: Option<string>,
    totalAmount: real,
    orderDate: string,
    status: string)

  /** The `Order` bean `getOrdersByUser` builds from a document. */
  datatype Order = Order(
    id: string,
    userId: string,
    items: seq<StoredItem>,
    address: Option<string>,
    totalAmount: real,
    orderDate: string,
    status: string)

  /** A status update waiting in the scheduler for some order. */
  datatype Task = Task(userId: string, status: string)

  /** The response map of `placeOrder` and `cancelOrder`. */
  datatype Reply = Reply(status: string, message: Option<string>, orderId: Option<string>)

  type UserOrders = map<string, OrderDoc>

  /** The statuses the scheduler moves a new order through, in order. */
  const Schedule: seq<string> := ["Cooking", "Out for Delivery", "Delivered"]

  /** The fields `placeOrder` keeps of an item: restaurant and imageUrl are dropped. */
  function Stored(item: LineItem): StoredItem
  {
    StoredItem(item.id, item.name, item.price, item.quantity, item.image)
  }

  /** A stored order as the `Order` bean, with its document id. */
  function AsOrder(id: string, doc: OrderDoc): Order
  {
    Order(id, doc.userId, doc.items, doc.address, doc.totalAmount, doc.orderDate, doc.status)
  }

  predicate IsCancelled(status: string)
  {
    EqualsIgnoreCase("Cancelled", status)
  }

  predicate IsDelivered(status: string)
  {
    EqualsIgnoreCase("Delivered", status)
  }

  /** The status an existing order has after `updateOrderStatus(newStatus)`. */
  function ApplyUpdate(status: string, newStatus: string): string
  {
    if IsCancelled(status) then status else newStatus
  }

  /** The status after a series of updates has fired, one after another. */
  function Replay(status: string, updates: seq<string>): string
    decreases |updates|
  {
    if updates == [] then status else Replay(ApplyUpdate(status, updates[0]), updates[1..])
  }

  /** The orders of every user after `updateOrderStatus(userId, orderId, newStatus)`:
      a missing or cancelled order is left alone; any other order, a
      delivered one included, takes the new status, and nothing else changes. */
  function StatusUpdated(orders: map<string, UserOrders>, userId: string, orderId: string, newStatus: string)
    : (r: map<string, UserOrders>)
    ensures userId !in orders || orderId !in orders[userId] ==> r == orders
    ensures userId in orders && orderId in orders[userId] ==>
              userId in r && r[userId].Keys == orders[userId].Keys &&
              r[userId][orderId] == orders[userId][orderId].(status := if IsCancelled(orders[userId][orderId].status) then orders[userId][orderId].status else newStatus)
    ensures r.Keys == orders.Keys
    ensures forall u, o :: u in orders && o in orders[u] && (u, o) != (userId, orderId) ==>
              u in r && o in r[u] && r[u][o] == orders[u][o]
  {
    if userId in orders && orderId in orders[userId] then
      var doc := orders[userId][orderId];
      orders[userId := orders[userId][orderId := doc.(status := ApplyUpdate(doc.status, newStatus))]]
    else orders
  }

  /** No status reads both as delivered and as cancelled. */
  lemma DeliveredIsNotCancelled(status: string)
    ensures !(IsDelivered(status) && IsCancelled(status))
  {
    if IsDelivered(status) && |status| > 0 {
      assert LowerChar(status[0]) == LowerChar("Delivered"[0]);
    }
  }

  /** Why `cancelOrder` refuses an order, or `None` when it goes ahead. */
  function CancelRefusal(docs: UserOrders, orderId: string): (r: Option<string>)
    ensures r == None <==> orderId in docs && !IsDelivered(docs[orderId].status) && !IsCancelled(docs[orderId].status)
    ensures orderId !in docs ==> r == Some("Order not found")
    ensures orderId in docs && IsDelivered(docs[orderId].status) ==> r == Some("Order already delivered and cannot be cancelled")
    ensures orderId in docs && IsCancelled(docs[orderId].status) ==> r == Some("Order already cancelled")
  {
    if orderId !in docs then Some("Order not found")
    else if IsDelivered(docs[orderId].status) then
      DeliveredIsNotCancelled(docs[orderId].status);
      Some("Order already delivered and cannot be cancelled")
    else if IsCancelled(docs[orderId].status) then Some("Order already cancelled")
    else None
  }

  /** The updates still pending for an order are the tail of `Schedule`, so
      they always fire in lifecycle order. */
  predicate PendingInOrder(pending: seq<Task>)
  {
    |pending| <= |Schedule| &&
    forall i :: 0 <= i < |pending| ==> pending[i].status == Schedule[|Schedule| - |pending| + i]
  }

  function Statuses(pending: seq<Task>): (r: seq<string>)
    ensures |r| == |pending| && forall i :: 0 <= i < |pending| ==> r[i] == pending[i].status
  {
    if pending == [] then [] else [pending[0].status] + Statuses(pending[1..])
  }

  /** What `scheduleStatusUpdates` records for a new order. */
  function ScheduledFor(userId: string): (r: seq<Task>)
    ensures Statuses(r) == Schedule && PendingInOrder(r)
  {
    [Task(userId, "Cooking"), Task(userId, "Out for Delivery"), Task(userId, "Delivered")]
  }

  // ---------------------------------------------------------------------
  // The lifecycle
  // ---------------------------------------------------------------------

  /** Replaying updates one after another is replaying their concatenation. */
  lemma {:induction false} ReplayAppend(status: string, a: seq<string>, b: seq<string>)
    ensures Replay(status, a + b) == Replay(Replay(status, a), b)
    decreases |a|
  {
    if a != [] {
      assert (a + b)[1..] == a[1..] + b;
      ReplayAppend(ApplyUpdate(status, a[0]), a[1..], b);
    } else {
      assert a + b == b;
    }
  }

  /** Once cancelled, an order stays cancelled whatever updates fire. */
  lemma {:induction false} CancelledAbsorbs(status: string, updates: seq<string>)
    requires IsCancelled(status)
    ensures Replay(status, updates) == status
    decreases |updates|
  {
    if updates != [] {
      CancelledAbsorbs(status, updates[1..]);
    }
  }

  /** Two strings that differ, ignoring case, at some position are not equal
      ignoring case. */
  lemma DiffersAt(s: string, t: string, i: nat)
    requires i < |s| && i < |t| && LowerChar(s[i]) != LowerChar(t[i])
    ensures !EqualsIgnoreCase(s, t)
  {
  }

  /** None of the statuses a new order goes through reads as cancelled. */
  lemma LifecycleNotCancelled()
    ensures !IsCancelled("Placed") && !IsCancelled("Cooking")
    ensures !IsCancelled("Out for Delivery") && !IsCancelled("Delivered")
  {
    DiffersAt("Cancelled", "Placed", 0);
    DiffersAt("Cancelled", "Cooking", 1);
    DiffersAt("Cancelled", "Out for Delivery", 0);
    DiffersAt("Cancelled", "Delivered", 0);
  }

  /** An update that reaches an order which is not cancelled sets its status. */
  lemma ReplayStep(status: string, next: string, rest: seq<string>)
    requires !IsCancelled(status)
    ensures Replay(status, [next] + rest) == Replay(next, rest)
  {
    assert ([next] + rest)[1..] == rest;
  }

  /** The full schedule takes a placed order through Cooking and Out for
      Delivery to Delivered. */
  lemma PlacedReachesDelivered()
    ensures Replay("Placed", Schedule[..1]) == "Cooking"
    ensures Replay("Placed", Schedule[..2]) == "Out for Delivery"
    ensures Replay("Placed", Schedule) == "Delivered"
  {
    LifecycleNotCancelled();
    ReplayStep("Placed", "Cooking", []);
    assert Schedule[..1] == ["Cooking"] + [];
    ReplayStep("Cooking", "Out for Delivery", []);
    ReplayStep("Placed", "Cooking", ["Out for Delivery"]);
    assert Schedule[..2] == ["Cooking"] + ["Out for Delivery"];
    assert ["Out for Delivery"] == ["Out for Delivery"] + [];
    ReplayStep("Out for Delivery", "Delivered", []);
    assert ["Delivered"] == ["Delivered"] + [];
    ReplayStep("Cooking", "Out for Delivery", ["Delivered"]);
    assert ["Out for Delivery", "Delivered"] == ["Out for Delivery"] + ["Delivered"];
    ReplayStep("Placed", "Cooking", ["Out for Delivery", "Delivered"]);
    assert Schedule == ["Cooking"] + ["Out for Delivery", "Delivered"];
  }

  /** Whatever pending updates remain, an order that has not been cancelled
      ends Delivered once they have all fired. */
  lemma {:induction false} PendingEndsDelivered(status: string, pending: seq<string>)
    requires !IsCancelled(status) && pending != []
    requires forall i :: 0 <= i < |pending| ==> !IsCancelled(pending[i])
    requires pending[|pending| - 1] == "Delivered"
    ensures Replay(status, pending) == "Delivered"
    decreases |pending|
  {
    if |pending| > 1 {
      PendingEndsDelivered(pending[0], pending[1..]);
    }
  }

  /** The scheduler has no ordering check: a delivered order that receives a
      later update takes the new status. */
  lemma DeliveredCanBeOverwritten(newStatus: string)
    ensures Replay("Delivered", [newStatus]) == newStatus
  {
    LifecycleNotCancelled();
  }

  class OrderService {
    const cartService: CartStore.CartService
    var orders: map<string, UserOrders>
    /** `scheduledTasks`, keyed by order id: the updates not yet fired. */
    var scheduled: map<string, seq<Task>>

    ghost predicate Valid()
      reads this, cartService
    {
      cartService.Valid() &&
      forall oid :: oid in scheduled ==> PendingInOrder(scheduled[oid])
    }

    function OrdersOf(userId: string): UserOrders
      reads this
    {
      if userId in orders then orders[userId] else map[]
    }

    constructor (cartService: CartStore.CartService)
      requires cartService.Valid()
      ensures this.cartService == cartService && orders == map[] && scheduled == map[]
      ensures Valid()
    {
      this.cartService := cartService;
      orders := map[];
      scheduled := map[];
    }

    /** The loop building `serializedItems`. */
    method SerializeItems(items: seq<LineItem>) returns (r: seq<StoredItem>)
      ensures |r| == |items|
      ensures forall i :: 0 <= i < |items| ==> r[i] == Stored(items[i])
    {
      r := [];
      var i := 0;
      while i < |items|
        invariant 0 <= i <= |items| && |r| == i
        invariant forall j :: 0 <= j < i ==> r[j] == Stored(items[j])
      {
        r := r + [Stored(items[i])];
        i := i + 1;
      }
    }

    /** `placeOrder`: stores a new "Placed" order under a fresh id, clears the
        user's cart and schedules the three status updates. */
    method PlaceOrder(userId: string, items: seq<LineItem>, address: Option<string>, totalAmount: real,
                      freshId: string, now: string) returns (resp: Reply)
      requires Valid()
      requires freshId !in OrdersOf(userId) && freshId !in scheduled
      modifies this, cartService
      ensures Valid()
      ensures freshId in OrdersOf(userId)
      ensures OrdersOf(userId)[freshId].status == "Placed"
      ensures OrdersOf(userId)[freshId].address == address && OrdersOf(userId)[freshId].totalAmount == totalAmount
      ensures OrdersOf(userId)[freshId].userId == userId && OrdersOf(userId)[freshId].orderDate == now
      ensures |OrdersOf(userId)[freshId].items| == |items|
      ensures forall i :: 0 <= i < |items| ==> OrdersOf(userId)[freshId].items[i] == Stored(items[i])
      ensures orders == old(orders)[userId := old(OrdersOf(userId))[freshId := OrdersOf(userId)[freshId]]]
      ensures scheduled == old(scheduled)[freshId := ScheduledFor(userId)]
      ensures Statuses(scheduled[freshId]) == Schedule
      ensures cartService.CartOf(userId) == map[]
      ensures cartService.carts - {userId} == old(cartService.carts) - {userId}
      ensures resp == Reply("success", None, Some(freshId))
    {
      var serialized := SerializeItems(items);
      var doc := OrderDoc(userId, serialized, address, totalAmount, now, "Placed");
      orders := orders[userId := OrdersOf(userId)[freshId := doc]];
      cartService.ClearCart(userId);
      scheduled := scheduled[freshId := ScheduledFor(userId)];
      resp := Reply("success", None, Some(freshId));
    }

    /** `updateOrderStatus`. */
    method UpdateOrderStatus(userId: string, orderId: string, newStatus: string)
      modifies this`orders
      ensures orders == StatusUpdated(old(orders), userId, orderId, newStatus)
    {
      var docs := OrdersOf(userId);
      if orderId !in docs {
        return;
      }
      var current := docs[orderId].status;
      if IsCancelled(current) {
        assert docs[orderId := docs[orderId]] == docs;
        return;
      }
      orders := orders[userId := docs[orderId := docs[orderId].(status := newStatus)]];
    }

    /** The scheduler fires the next pending update of `orderId`. */
    method FireNext(orderId: string)
      requires Valid() && orderId in scheduled && scheduled[orderId] != []
      modifies this`orders, this`scheduled
      ensures Valid()
      ensures scheduled == old(scheduled)[orderId := old(scheduled[orderId])[1..]]
      ensures orders == StatusUpdated(old(orders), old(scheduled[orderId])[0].userId, orderId, old(scheduled[orderId])[0].status)
    {
      var task := scheduled[orderId][0];
      scheduled := scheduled[orderId := scheduled[orderId][1..]];
      UpdateOrderStatus(task.userId, orderId, task.status);
    }

    /** `cancelOrder`: refuses missing, delivered and cancelled orders;
        otherwise drops the order's pending updates and marks it cancelled. */
    method CancelOrder(userId: string, orderId: string) returns (resp: Reply)
      requires Valid()
      modifies this`orders, this`scheduled
      ensures Valid()
      ensures CancelRefusal(old(OrdersOf(userId)), orderId).Some? ==>
                resp == Reply("error", CancelRefusal(old(OrdersOf(userId)), orderId), None) &&
                orders == old(orders) && scheduled == old(scheduled)
      ensures CancelRefusal(old(OrdersOf(userId)), orderId).None? ==>
                resp == Reply("success", Some("Order cancelled successfully"), None) &&
                orders == old(orders)[userId := old(OrdersOf(userId))[orderId := old(OrdersOf(userId))[orderId].(status := "Cancelled")]] &&
                scheduled == old(scheduled) - {orderId}
    {
      var docs := OrdersOf(userId);
      if orderId !in docs {
        return Reply("error", Some("Order not found"), None);
      }
      var current := docs[orderId].status;
      if IsDelivered(current) {
        return Reply("error", Some("Order already delivered and cannot be cancelled"), None);
      }
      if IsCancelled(current) {
        return Reply("error", Some("Order already cancelled"), None);
      }
      assert CancelRefusal(docs, orderId) == None;
      if orderId in scheduled {
        scheduled := scheduled - {orderId};
      }
      orders := orders[userId := docs[orderId := docs[orderId].(status := "Cancelled")]];
      resp := Reply("success", Some("Order cancelled successfully"), None);
    }

    /** `getOrdersByUser`: one `Order` per document of the user, each once,
        carrying its document id. */
    method GetOrdersByUser(userId: string) returns (list: seq<Order>)
      ensures forall i :: 0 <= i < |list| ==>
                list[i].id in OrdersOf(userId) && list[i] == AsOrder(list[i].id, OrdersOf(userId)[list[i].id])
      ensures forall i, j :: 0 <= i < j < |list| ==> list[i].id != list[j].id
      ensures forall k :: k in OrdersOf(userId) ==> exists i :: 0 <= i < |list| && list[i].id == k
    {
      var docs := OrdersOf(userId);
      var remaining := docs.Keys;
      list := [];
      while remaining != {}
        invariant remaining <= docs.Keys
        invariant forall i :: 0 <= i < |list| ==>
                    list[i].id in docs && list[i].id !in remaining && list[i] == AsOrder(list[i].id, docs[list[i].id])
        invariant forall i, j :: 0 <= i < j < |list| ==> list[i].id != list[j].id
        invariant forall k :: k in docs && k !in remaining ==> exists i :: 0 <= i < |list| && list[i].id == k
        decreases remaining
      {
        var k :| k in remaining;
        ghost var before := list;
        list := list + [AsOrder(k, docs[k])];
        remaining := remaining - {k};
        forall k' | k' in docs && k' !in remaining
          ensures exists i :: 0 <= i < |list| && list[i].id == k'
        {
          if k' == k {
            assert list[|before|].id == k';
          } else {
            var i :| 0 <= i < |before| && before[i].id == k';
            assert list[i].id == k';
          }
        }
      }
    }
  }

  /** Cancelling an order for good: once `cancelOrder` has succeeded, no
      update that could still reach it changes its status. */
  lemma CancelIsFinal(orders: map<string, UserOrders>, userId: string, orderId: string, later: seq<string>)
    requires userId in orders && orderId in orders[userId]
    requires orders[userId][orderId].status == "Cancelled"
    ensures Replay("Cancelled", later) == "Cancelled"
    ensures forall newStatus :: StatusUpdated(orders, userId, orderId, newStatus) == orders
  {
    CancelledAbsorbs("Cancelled", later);
    forall newStatus
      ensures StatusUpdated(orders, userId, orderId, newStatus) == orders
    {
      var doc := orders[userId][orderId];
      assert doc.(status := ApplyUpdate(doc.status, newStatus)) == doc;
      assert orders[userId][orderId := doc] == orders[userId];
    }
  }
}
