/** The order-tracking screen (src/app/track-order/page.tsx): it narrows the
    fetched orders to the latest one, works out each order's step in the
    Placed / Cooking / Out for Delivery / Delivered progression and its ETA,
    and marks an order cancelled once the server accepts the request. */
module TrackOrder {
  import opened Common

  /** An order as the orders endpoint returns it; dates are already epoch
      milliseconds. */
  datatype RawOrder = RawOrder(
    id: Option<string>,
    orderId: Option<string>,
    orderDate: Option<int>,
    date: Option<int>,
    status: Option<string>,
    totalAmount: Option<real>)

  /** An order as the screen keeps it after mapping. */
  datatype TrackedOrder = TrackedOrder(
    id: Option<string>,
    status: Option<string>,
    totalAmount: Option<real>,
    time: int,
    eta: int,
    currentStep: int)

  /** What the orders request came back with: a non-OK answer, a JSON body
      that is not an array, an array of orders, or an exception (the network
      failed or the body was not JSON) carrying its message, if it has one. */
  datatype Fetch = NotOk | NotArray | Orders(orders: seq<RawOrder>) | Threw(message: Option<string>)

  /** The names of `stepsConfig`, in order. */
  const StepNames: seq<string> := ["Placed", "Cooking", "Out for Delivery", "Delivered"]

  /** Twenty minutes, in milliseconds. */
  const DeliveryWindow: int := 20 * 60 * 1000

  /** JavaScript truthiness of a string that may be missing. */
  predicate Truthy(s: Option<string>)
  {
    s.Some? && s.value != ""
  }

  /** `stepsConfig.findIndex(s => s.name === status)`. */
  function FindStep(status: Option<string>, from: nat): (i: int)
    requires from <= |StepNames|
    ensures i == -1 || from <= i < |StepNames|
    ensures i >= 0 ==> status == Some(StepNames[i]) && forall j :: from <= j < i ==> status != Some(StepNames[j])
    ensures i == -1 ==> forall j :: from <= j < |StepNames| ==> status != Some(StepNames[j])
    decreases |StepNames| - from
  {
    if from == |StepNames| then -1
    else if status == Some(StepNames[from]) then from
    else FindStep(status, from + 1)
  }

  /** `currentStep`: the 1-based position of the status among the steps, and
      1 for any other status. */
  function CurrentStep(status: Option<string>): (step: int)
    ensures 1 <= step <= |StepNames|
    ensures status.Some? && status.value in StepNames ==> StepNames[step - 1] == status.value
    ensures !(status.Some? && status.value in StepNames) ==> step == 1
  {
    var i := FindStep(status, 0);
    if i >= 0 then i + 1 else 1
  }

  /** One element of `mappedOrders`: the raw date is `orderDate`, else
      `date`; a missing or falsy (zero) raw date gives the current time. The
      id falls back from `id` to `orderId`. */
  function Track(o: RawOrder, now: int): (t: TrackedOrder)
    ensures t.eta == t.time + DeliveryWindow
    ensures var raw := if o.orderDate.Some? then o.orderDate else o.date;
            t.time == (if raw.Some? && raw.value != 0 then raw.value else now)
    ensures t.id == (if o.id.Some? then o.id else o.orderId)
    ensures t.status == o.status && t.totalAmount == o.totalAmount
    ensures 1 <= t.currentStep <= 4
  {
    var raw := if o.orderDate.Some? then o.orderDate else o.date;
    var time := if raw.Some? && raw.value != 0 then raw.value else now;
    TrackedOrder(if o.id.Some? then o.id else o.orderId, o.status, o.totalAmount, time, time + DeliveryWindow, CurrentStep(o.status))
  }

  function TrackAll(orders: seq<RawOrder>, now: int): (r: seq<TrackedOrder>)
    ensures |r| == |orders|
    ensures forall i :: 0 <= i < |orders| ==> r[i] == Track(orders[i], now)
  {
    if orders == [] then [] else [Track(orders[0], now)] + TrackAll(orders[1..], now)
  }

  /** Only the orders whose own `id` is the latest order id, when one is stored. */
  function LatestOnly(orders: seq<RawOrder>, latestOrderId: Option<string>): seq<RawOrder>
  {
    if Truthy(latestOrderId) then Filter(orders, (o: RawOrder) => o.id == latestOrderId) else orders
  }

  /** With a latest order id stored exactly the orders carrying it remain, in
      order; without one every order is kept. */
  lemma LatestOnlyKeeps(orders: seq<RawOrder>, latestOrderId: Option<string>, o: RawOrder)
    ensures !Truthy(latestOrderId) ==> LatestOnly(orders, latestOrderId) == orders
    ensures Truthy(latestOrderId) ==> (o in LatestOnly(orders, latestOrderId) <==> o in orders && o.id == latestOrderId)
    ensures IsSubsequence(LatestOnly(orders, latestOrderId), orders)
  {
    var p := (x: RawOrder) => x.id == latestOrderId;
    if Truthy(latestOrderId) {
      FilterMembership(orders, p, o);
      FilterIsSubsequence(orders, p);
    } else {
      SubsequenceRefl(orders);
    }
  }

  // ---------------------------------------------------------------------
  // Step classification
  // ---------------------------------------------------------------------

  predicate IsCompleted(stepIndex: int, currentStep: int) { stepIndex < currentStep }
  predicate IsCurrent(stepIndex: int, currentStep: int) { stepIndex == currentStep }
  predicate IsPending(stepIndex: int, currentStep: int) { stepIndex > currentStep }

  /** The step list is drawn only for an order whose status is not exactly
      "Cancelled". */
  predicate ShowsSteps(o: TrackedOrder)
  {
    o.status != Some("Cancelled")
  }

  /** No two steps share a name (their names have different lengths). */
  lemma StepNamesDistinct(a: int, b: int)
    requires 0 <= a < b < |StepNames|
    ensures StepNames[a] != StepNames[b]
  {
    assert |StepNames[a]| != |StepNames[b]|;
  }

  /** On every tracked order each of the four steps is drawn as exactly one
      of completed, current and pending, and exactly one step is current. */
  lemma StepClassification(o: RawOrder, now: int)
    ensures var c := Track(o, now).currentStep;
            forall s :: 1 <= s <= 4 ==>
              (IsCompleted(s, c) || IsCurrent(s, c) || IsPending(s, c)) &&
              !(IsCompleted(s, c) && IsCurrent(s, c)) &&
              !(IsCompleted(s, c) && IsPending(s, c)) &&
              !(IsCurrent(s, c) && IsPending(s, c))
    ensures var c := Track(o, now).currentStep;
            |set s | 1 <= s <= 4 && IsCurrent(s, c)| == 1
  {
    var c := Track(o, now).currentStep;
    assert (set s | 1 <= s <= 4 && IsCurrent(s, c)) == {c};
  }

  /** An order whose status is the name of step k + 1 is drawn with the
      steps before it completed, that step current and the later ones
      pending, and its step list is shown. */
  lemma StepsFollowStatus(o: RawOrder, now: int, k: int)
    requires 0 <= k < |StepNames| && o.status == Some(StepNames[k])
    ensures var c := Track(o, now).currentStep;
            forall s :: 1 <= s <= 4 ==>
              (IsCompleted(s, c) <==> s <= k) &&
              (IsCurrent(s, c) <==> s == k + 1) &&
              (IsPending(s, c) <==> s > k + 1)
    ensures ShowsSteps(Track(o, now))
  {
    var i := FindStep(o.status, 0);
    assert i <= k;
    if i < k {
      StepNamesDistinct(i, k);
    }
    assert Track(o, now).currentStep == k + 1;
  }

  /** A delivered order shows Placed, Cooking and Out for Delivery completed,
      Delivered current, and no cancel button. */
  lemma DeliveredRendering(o: RawOrder, now: int)
    requires o.status == Some("Delivered")
    ensures var c := Track(o, now).currentStep;
            IsCompleted(1, c) && IsCompleted(2, c) && IsCompleted(3, c) && IsCurrent(4, c)
    ensures ShowsSteps(Track(o, now)) && !ShowCancelButton(Track(o, now))
  {
    StepsFollowStatus(o, now, 3);
  }

  /** Any other status, a missing one included, leaves the order at the first
      step: Placed current and every later step pending. */
  lemma UnknownStatusAtFirstStep(o: RawOrder, now: int)
    requires !(o.status.Some? && o.status.value in StepNames)
    ensures var c := Track(o, now).currentStep;
            c == 1 && IsCurrent(1, c) && IsPending(2, c) && IsPending(3, c) && IsPending(4, c)
  {
  }

  /** The cancel button is offered unless the status reads exactly
      "Delivered" or "Cancelled". */
  predicate ShowCancelButton(o: TrackedOrder)
  {
    o.status != Some("Delivered") && o.status != Some("Cancelled")
  }

  /** The optimistic update after an accepted cancel. */
  function MarkCancelled(orders: seq<TrackedOrder>, orderId: string): (r: seq<TrackedOrder>)
    ensures |r| == |orders|
    ensures forall i :: 0 <= i < |orders| && orders[i].id == Some(orderId) ==> r[i] == orders[i].(status := Some("Cancelled"))
    ensures forall i :: 0 <= i < |orders| && orders[i].id != Some(orderId) ==> r[i] == orders[i]
  {
    if orders == [] then [] else
      [if orders[0].id == Some(orderId) then orders[0].(status := Some("Cancelled")) else orders[0]] +
      MarkCancelled(orders[1..], orderId)
  }

  /** After the optimistic update no order with that id offers to cancel. */
  lemma MarkedHideCancel(orders: seq<TrackedOrder>, orderId: string, i: int)
    requires 0 <= i < |orders| && orders[i].id == Some(orderId)
    ensures !ShowCancelButton(MarkCancelled(orders, orderId)[i])
  {
  }

  class TrackingPage {
    var orders: seq<TrackedOrder>
    var loading: bool
    var error: string

    constructor ()
      ensures orders == [] && loading && error == ""
    {
      orders := [];
      loading := true;
      error := "";
    }

    /** The fetch effect.  `requested` is the user whose orders were asked
        for, if a request was made at all. */
    method Load(userId: Option<string>, latestOrderId: Option<string>, response: Fetch, now: int)
      returns (requested: Option<string>)
      modifies this
      ensures !loading
      ensures !Truthy(userId) ==> requested == None && error == "User not logged in." && orders == old(orders)
      ensures Truthy(userId) ==> requested == userId
      ensures Truthy(userId) && response.NotOk? ==> error == "Failed to fetch orders" && orders == old(orders)
      ensures Truthy(userId) && response.Threw? ==>
                error == (if response.message.Some? then response.message.value else "Failed to load orders") &&
                orders == old(orders)
      ensures Truthy(userId) && response.NotArray? ==> error == old(error) && orders == []
      ensures Truthy(userId) && response.Orders? ==>
                error == old(error) && orders == TrackAll(LatestOnly(response.orders, latestOrderId), now)
    {
      if !Truthy(userId) {
        error := "User not logged in.";
        loading := false;
        return None;
      }
      requested := userId;
      if response.NotOk? || response.Threw? {
        error := if response.NotOk? then "Failed to fetch orders"
                 else if response.message.Some? then response.message.value
                 else "Failed to load orders";
        loading := false;
        return;
      }
      var all := if response.Orders? then response.orders else [];
      all := LatestOnly(all, latestOrderId);
      orders := TrackAll(all, now);
      loading := false;
    }

    /** `handleCancelOrder(orderId)`: without a user nothing is sent; when
        the server answers OK the order is shown as cancelled. */
    method CancelOrder(orderId: string, userId: Option<string>, accepted: bool) returns (sent: bool)
      modifies this`orders
      ensures sent <==> Truthy(userId)
      ensures sent && accepted ==> orders == MarkCancelled(old(orders), orderId)
      ensures !(sent && accepted) ==> orders == old(orders)
    {
      if !Truthy(userId) {
        return false;
      }
      sent := true;
      if accepted {
        orders := MarkCancelled(orders, orderId);
      }
    }
  }
}
