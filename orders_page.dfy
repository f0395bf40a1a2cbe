/** The order history screen (src/app/orders/page.tsx): the current and past
    tabs, the order number on each card and the card's footer button. */
module OrderHistory {
  import opened Common

  /** An order as the history screen receives it. */
  datatype OrderSummary = OrderSummary(id: string, status: string, totalAmount: real, date: string)

  /** The button in a card's footer. */
  datatype FooterAction = TrackOrder(path: string) | Reorder

  predicate IsCurrent(o: OrderSummary)
  {
    o.status == "Cooking" || o.status == "Out for Delivery" || o.status == "Placed"
  }

  predicate IsPast(o: OrderSummary)
  {
    o.status == "Delivered" || o.status == "Cancelled"
  }

  /** `currentOrders`. */
  function CurrentOrders(orders: seq<OrderSummary>): seq<OrderSummary>
  {
    Filter(orders, IsCurrent)
  }

  /** `pastOrders`. */
  function PastOrders(orders: seq<OrderSummary>): seq<OrderSummary>
  {
    Filter(orders, IsPast)
  }

  /** The two tabs: an order is current exactly when its status is Cooking,
      Out for Delivery or Placed, past exactly when it is Delivered or
      Cancelled, never both, and neither for any other status; each tab
      keeps every matching order as often as it occurs, in the original
      order. */
  lemma Tabs(orders: seq<OrderSummary>, o: OrderSummary)
    ensures o in CurrentOrders(orders) <==> o in orders && (o.status == "Cooking" || o.status == "Out for Delivery" || o.status == "Placed")
    ensures o in PastOrders(orders) <==> o in orders && (o.status == "Delivered" || o.status == "Cancelled")
    ensures !(o in CurrentOrders(orders) && o in PastOrders(orders))
    ensures multiset(CurrentOrders(orders))[o] + multiset(PastOrders(orders))[o] ==
              if IsCurrent(o) || IsPast(o) then multiset(orders)[o] else 0
    ensures IsSubsequence(CurrentOrders(orders), orders) && IsSubsequence(PastOrders(orders), orders)
  {
    FilterMembership(orders, IsCurrent, o);
    FilterMembership(orders, IsPast, o);
    FilterCount(orders, IsCurrent, o);
    FilterCount(orders, IsPast, o);
    FilterIsSubsequence(orders, IsCurrent);
    FilterIsSubsequence(orders, IsPast);
  }

  /** `order.id.slice(0, 6).toUpperCase()`. */
  function OrderNumber(id: string): (n: string)
    ensures |n| == if |id| < 6 then |id| else 6
    ensures forall i :: 0 <= i < |n| ==> n[i] == UpperChar(id[i])
  {
    ToUpper(if |id| < 6 then id else id[..6])
  }

  /** An order number has no lower-case letters left: upper-casing it again
      changes nothing. */
  lemma OrderNumberIsUpper(id: string)
    ensures ToUpper(OrderNumber(id)) == OrderNumber(id)
  {
    var n := OrderNumber(id);
    forall i | 0 <= i < |n|
      ensures UpperChar(n[i]) == n[i]
    {
      assert n[i] == UpperChar(id[i]);
    }
  }

  /** Ids that agree on their first six characters, up to case, show the
      same order number. */
  lemma OrderNumberPrefix(a: string, b: string)
    requires |a| >= 6 && |b| >= 6
    requires forall i :: 0 <= i < 6 ==> UpperChar(a[i]) == UpperChar(b[i])
    ensures OrderNumber(a) == OrderNumber(b)
  {
  }

  /** The footer button of a card. */
  function Footer(o: OrderSummary): (action: FooterAction)
    ensures action.TrackOrder? <==> o.status == "Cooking" || o.status == "Out for Delivery"
    ensures action.TrackOrder? ==> action.path == "/track-order/" + o.id
  {
    if o.status == "Cooking" || o.status == "Out for Delivery" then TrackOrder("/track-order/" + o.id)
    else Reorder
  }

  /** Only current orders can be tracked, and a placed order, though
      current, is offered a reorder instead. */
  lemma TrackedOrdersAreCurrent(o: OrderSummary)
    ensures Footer(o).TrackOrder? ==> IsCurrent(o)
    ensures o.status == "Placed" ==> IsCurrent(o) && Footer(o) == Reorder
  {
  }
}
