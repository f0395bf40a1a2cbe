# Gourmet Galaxy — a verified model of the ordering core

Gourmet Galaxy is a food-ordering application: a Next.js client and a Spring
Boot back end over Firestore. This project models its decision-making core in
Dafny and proves properties of that model:

- the cart screen's pricing: subtotal, the five-entry discount catalogue with
  its unlock rules, the unlocked-first ranking, the select/deselect toggle,
  the discount rounded to cents and the total with the delivery fee
  (`cart_pricing.dfy`, `cart_page.dfy`);
- the server cart table: add-or-merge, set quantity, remove, clear, list
  (`cart_service.dfy`);
- the order lifecycle: placing an order, the scheduled Cooking → Out for
  Delivery → Delivered updates, cancelling, status updates that never revive a
  cancelled order, listing (`order_service.dfy`), and the order endpoints
  that read request payloads and dispatch to it (`order_controller.dfy`);
- the restaurant/menu table (`restaurant_service.dfy`) and the explore
  screen's flattening of menus and its price, top-search and category filters
  (`explore.dfy`);
- the client classifiers: order tracking (`track_order.dfy`), the order
  history tabs (`orders_page.dfy`), checkout validation and its request flow
  (`checkout.dfy`), and bottom-navigation highlighting (`bottom_nav.dfy`).

Shared helpers live in `common.dfy`: `Option`/`Result`, ASCII case folding,
substring tests, and an order-preserving `Filter` with its lemmas.

Money is `real`. JavaScript's `Math.round(x*100)/100` is `Round2`, which rounds
half up. Firestore collections are maps held in the fields of the service
classes. Generated UUIDs, the current time and the answers of HTTP requests
are parameters. The task scheduler is a map from order id to its sequence of
pending status updates.

## Model

| member | source | states |
|---|---|---|
| CartPricing.SubtotalAppend | src/app/cart/CartPageClient.tsx:74-80 | the subtotal of two concatenated carts is the sum of their subtotals, so the reduce is a sum over lines |
| CartPricing.SubtotalNonNegative | src/app/cart/CartPageClient.tsx:74-80 | with non-negative prices and quantities the subtotal is never negative |
| CartPricing.HighestIsMaximum | src/app/cart/CartPageClient.tsx:199-201 | the highest line amount bounds every line, is 0 for an empty cart and is reached by some line otherwise |
| CartPricing.HighestAtMostSubtotal | src/app/cart/CartPageClient.tsx:199-201 | with non-negative lines the highest line amount never exceeds the subtotal |
| CartPricing.Catalogue | src/app/cart/CartPageClient.tsx:147-186 | exactly five offers in the codes' order; an offer whose code is in `usedDiscounts` is locked whatever its other condition |
| CartPricing.ThresholdOffers | src/app/cart/CartPageClient.tsx:158-165 | ABOVE_149 unlocks iff subtotal > 149 and unused, ABOVE_299 iff > 299 and unused; ABOVE_299 unlocked with ABOVE_149 unused implies ABOVE_149 unlocked |
| CartPricing.FindOffer | src/app/cart/CartPageClient.tsx:197-198 | the lookup returns an offer with that code, and none exactly when no offer carries it |
| CartPricing.Round2Close | src/app/cart/CartPageClient.tsx:203 | rounding moves a value by at most half a cent and yields whole cents |
| CartPricing.Round2Monotone | src/app/cart/CartPageClient.tsx:203 | rounding to cents preserves order |
| CartPricing.Round2OfCents | src/app/cart/CartPageClient.tsx:203 | a value already in whole cents is unchanged |
| CartPricing.DiscountAmount | src/app/cart/CartPageClient.tsx:192-204 | the discount is never negative and in whole cents; 0 with no selection or an unknown code |
| CartPricing.DiscountTracksCalc | src/app/cart/CartPageClient.tsx:197-203 | a selected catalogue code yields exactly `max(0, round2(calc(subtotal, highest)))` of that offer, unlocked or not, which is within half a cent of `calc` when that is not negative |
| CartPricing.CappedOffers | src/app/cart/CartPageClient.tsx:159-167 | ABOVE_149 is worth at most 40 and ABOVE_299 at most 100 |
| CartPricing.CatalogueIsModest | src/app/cart/CartPageClient.tsx:147-186 | every catalogue offer takes a share between 0 and 0.5 of its base |
| CartPricing.CalcAtMostHalfSubtotal | src/app/cart/CartPageClient.tsx:151-184 | such an offer's `calc` is worth at most half the subtotal when the highest line lies between 0 and the subtotal |
| CartPricing.HalfRoundsBelow | src/app/cart/CartPageClient.tsx:203 | half of a non-negative amount, rounded to cents, never exceeds the amount |
| CartPricing.DiscountAtMostSubtotal | src/app/cart/CartPageClient.tsx:147-204 | with non-negative lines no offer's discount exceeds the subtotal, whether or not the subtotal is in whole cents |
| CartPricing.Total | src/app/cart/CartPageClient.tsx:206 | the total is never negative, and is either 0 or subtotal − discount + 15 |
| CartPricing.SortedIsPermutation | src/app/cart/CartPageClient.tsx:188-190 | the ranked list holds the same offers as the catalogue |
| CartPricing.UnlockedFirstSplits | src/app/cart/CartPageClient.tsx:188-190 | a list with every unlocked offer first is its unlocked offers followed by its locked ones |
| CartPricing.ConcatUnlockedFirst | src/app/cart/CartPageClient.tsx:188-190 | unlocked offers followed by locked offers have every unlocked offer first |
| CartPricing.SortedOffersIsStable | src/app/cart/CartPageClient.tsx:188-190 | the ranking puts every unlocked offer first and keeps catalogue order within each group |
| CartPricing.SortedOffersIsStableSort | src/app/cart/CartPageClient.tsx:188-190 | a list is the ranking iff it has every unlocked offer first and keeps the catalogue order within each group (a stable sort) |
| CartPricing.Toggle | src/app/cart/CartPageClient.tsx:216 | the new selection is cleared iff the same code was selected, and otherwise is that code |
| CartPricing.ToggleTwiceClears | src/app/cart/CartPageClient.tsx:208-218 | selecting the same code twice clears the selection and brings the discount to 0 |
| CartPricing.StaleSelectionStillApplies | src/app/cart/CartPageClient.tsx:192-204 | a selected ABOVE_149 whose subtotal later drops to 100 is locked yet still yields 15 off |
| CartPricing.Above149Example | src/app/cart/CartPageClient.tsx:156-160 | a 200 cart unlocks ABOVE_149 worth 30 and a total of 185 |
| CartPricing.Loyal40Example | src/app/cart/CartPageClient.tsx:177-184 | spending 1000 unlocks LOYAL_40 without ten orders |
| CartScreen.CartPage.constructor | src/app/cart/CartPageClient.tsx:36-46 | an empty cart, no selection, zero discount and the initial meta, consistently settled |
| CartScreen.CartPage.Offers | src/app/cart/CartPageClient.tsx:147-186 | the screen's catalogue has five offers |
| CartScreen.CartPage.SortedDiscounts | src/app/cart/CartPageClient.tsx:188-190 | five offers with every unlocked one first |
| CartScreen.CartPage.Total | src/app/cart/CartPageClient.tsx:206 | the screen's total is never negative and is 0 or subtotal − discount + 15 |
| CartScreen.CartPage.ReceiveItems | src/app/cart/CartPageClient.tsx:62 | the fetched items replace the screen's items |
| CartScreen.CartPage.RecomputeSubtotal | src/app/cart/CartPageClient.tsx:74-80 | the subtotal effect sets the subtotal to the sum over the items |
| CartScreen.CartPage.RecomputeDiscount | src/app/cart/CartPageClient.tsx:192-204 | the discount effect sets the amount the selection is worth now |
| CartScreen.CartPage.Refresh | src/app/cart/CartPageClient.tsx:74-80 | running both effects leaves subtotal and discount consistent with items, meta and selection |
| CartScreen.CartPage.SelectDiscount | src/app/cart/CartPageClient.tsx:208-218 | a locked code changes nothing; an unlocked one toggles the selection, and a cleared selection zeroes the discount |
| CartScreen.CartPage.ClickOffer | src/app/cart/CartPageClient.tsx:412 | clicking a ranked offer toggles it only when unlocked, and the discount then matches the new selection |
| CartScreen.ClickLockedOfferIsNoOp | src/app/cart/CartPageClient.tsx:209-214 | clicking a locked offer leaves selection and discount as they were |
| CartScreen.ClickTwiceClears | src/app/cart/CartPageClient.tsx:215-217 | clicking the same unlocked offer twice clears the selection, zeroes the discount and totals without discount |
| CartStore.WithQuantity | food-backend/src/main/java/com/foodorder/food_backend/service/CartService.java:70-74 | quantity ≤ 0 deletes the item; otherwise only that item's quantity is set, every other item is unchanged |
| CartStore.MatchIsUnique | food-backend/src/main/java/com/foodorder/food_backend/service/CartService.java:39-48 | in a well-formed cart at most one item shares a product's name and restaurant |
| CartStore.AddMerges | food-backend/src/main/java/com/foodorder/food_backend/service/CartService.java:43-48 | adding a product already in the cart raises exactly that item's quantity by 1 and adds no item |
| CartStore.AddInserts | food-backend/src/main/java/com/foodorder/food_backend/service/CartService.java:49-53 | adding a new product inserts one item under the fresh id with quantity 1, other items unchanged |
| CartStore.AddKeepsWellFormed | food-backend/src/main/java/com/foodorder/food_backend/service/CartService.java:39-57 | adding keeps keys equal to ids, quantities positive and products unique |
| CartStore.WithQuantityKeepsWellFormed | food-backend/src/main/java/com/foodorder/food_backend/service/CartService.java:70-74 | a quantity update keeps the cart well formed |
| CartStore.RemovalKeepsWellFormed | food-backend/src/main/java/com/foodorder/food_backend/service/CartService.java:88 | removing an item keeps the cart well formed |
| CartStore.RestaurantsCanMix | food-backend/src/main/java/com/foodorder/food_backend/service/CartService.java:39-57 | adding keeps items of other restaurants: no single-restaurant rule exists |
| CartStore.CartService.constructor | food-backend/src/main/java/com/foodorder/food_backend/service/CartService.java:12-14 | no carts at start |
| CartStore.CartService.GetCartItems | food-backend/src/main/java/com/foodorder/food_backend/service/CartService.java:16-31 | the list holds each item of the user's cart exactly once, under its own id |
| CartStore.CartService.AddToCart | food-backend/src/main/java/com/foodorder/food_backend/service/CartService.java:33-63 | only the user's cart changes, to the merged-or-inserted cart; "success", the right message and the full new cart |
| CartStore.CartService.UpdateQuantity | food-backend/src/main/java/com/foodorder/food_backend/service/CartService.java:65-83 | only the user's cart changes, by the quantity rule; "success" with the full new cart |
| CartStore.CartService.RemoveItem | food-backend/src/main/java/com/foodorder/food_backend/service/CartService.java:85-96 | only that item of the user's cart is deleted; "success" with the full new cart |
| CartStore.CartService.ClearCart | food-backend/src/main/java/com/foodorder/food_backend/service/CartService.java:98-108 | the user's cart ends empty and every other user's cart is unchanged |
| OrderStore.StatusUpdated | food-backend/src/main/java/com/foodorder/food_backend/service/OrderService.java:202-213 | a missing order changes nothing; only the addressed order's status can change, and not when it is cancelled |
| OrderStore.DeliveredIsNotCancelled | food-backend/src/main/java/com/foodorder/food_backend/service/OrderService.java:115-124 | no status is both Delivered and Cancelled ignoring case |
| OrderStore.CancelRefusal | food-backend/src/main/java/com/foodorder/food_backend/service/OrderService.java:108-124 | a cancel is refused iff the order is missing, Delivered or Cancelled (ignoring case), with the exact message of each case |
| OrderStore.Statuses | food-backend/src/main/java/com/foodorder/food_backend/service/OrderService.java:84-95 | the statuses of a pending list, one per task, in order |
| OrderStore.ScheduledFor | food-backend/src/main/java/com/foodorder/food_backend/service/OrderService.java:84-95 | exactly three updates, Cooking, Out for Delivery, Delivered, in that order |
| OrderStore.ReplayAppend | food-backend/src/main/java/com/foodorder/food_backend/service/OrderService.java:202-213 | applying two batches of updates in turn is applying their concatenation |
| OrderStore.CancelledAbsorbs | food-backend/src/main/java/com/foodorder/food_backend/service/OrderService.java:205-209 | no sequence of updates moves a cancelled order |
| OrderStore.DiffersAt | food-backend/src/main/java/com/foodorder/food_backend/service/OrderService.java:115-124 | strings with a differing letter at one place are not equal ignoring case |
| OrderStore.LifecycleNotCancelled | food-backend/src/main/java/com/foodorder/food_backend/service/OrderService.java:84-95 | none of Placed, Cooking, Out for Delivery, Delivered reads as Cancelled |
| OrderStore.ReplayStep | food-backend/src/main/java/com/foodorder/food_backend/service/OrderService.java:202-213 | an update to a non-cancelled order sets the status the rest starts from |
| OrderStore.PlacedReachesDelivered | food-backend/src/main/java/com/foodorder/food_backend/service/OrderService.java:84-95 | undisturbed, a placed order goes to Cooking, then Out for Delivery, then Delivered |
| OrderStore.PendingEndsDelivered | food-backend/src/main/java/com/foodorder/food_backend/service/OrderService.java:84-95 | from any non-cancelled status, any remaining tail of the schedule ends in Delivered |
| OrderStore.DeliveredCanBeOverwritten | food-backend/src/main/java/com/foodorder/food_backend/service/OrderService.java:210-212 | an update overwrites a Delivered status; there is no ordering check |
| OrderStore.CancelIsFinal | food-backend/src/main/java/com/foodorder/food_backend/service/OrderService.java:135-141 | once an order is Cancelled, every later status update, applied to the stored order or replayed in sequence, leaves it Cancelled and the order store unchanged |
| OrderStore.OrderService.constructor | food-backend/src/main/java/com/foodorder/food_backend/service/OrderService.java:28-31 | no orders and no pending updates, over the given cart service |
| OrderStore.OrderService.SerializeItems | food-backend/src/main/java/com/foodorder/food_backend/service/OrderService.java:40-49 | one stored item per line, in order, keeping only id, name, price, quantity and image |
| OrderStore.OrderService.PlaceOrder | food-backend/src/main/java/com/foodorder/food_backend/service/OrderService.java:34-81 | the new order is stored as Placed with the given address, total, date and items; the cart is cleared; three updates are scheduled; its id is returned |
| OrderStore.OrderService.UpdateOrderStatus | food-backend/src/main/java/com/foodorder/food_backend/service/OrderService.java:194-219 | the orders become exactly the status-updated orders |
| OrderStore.OrderService.FireNext | food-backend/src/main/java/com/foodorder/food_backend/service/OrderService.java:87-92 | the next pending update of an order is consumed and applied as a status update |
| OrderStore.OrderService.CancelOrder | food-backend/src/main/java/com/foodorder/food_backend/service/OrderService.java:98-149 | a refusal changes nothing and reports its message; otherwise the pending updates are dropped and the status becomes Cancelled |
| OrderStore.OrderService.GetOrdersByUser | food-backend/src/main/java/com/foodorder/food_backend/service/OrderService.java:152-191 | each of the user's orders exactly once, with its stored fields |
| OrderApi.AsString | food-backend/src/main/java/com/foodorder/food_backend/controller/OrderController.java:28-30 | a `(String)` cast: null or a string reads, anything else is a type fault |
| OrderApi.AsNumber | food-backend/src/main/java/com/foodorder/food_backend/controller/OrderController.java:30-38 | unboxing a number: a number reads, null is a null fault, anything else a type fault |
| OrderApi.IntValue | food-backend/src/main/java/com/foodorder/food_backend/controller/OrderController.java:38 | `intValue` truncates toward zero |
| OrderApi.ExtractItem | food-backend/src/main/java/com/foodorder/food_backend/controller/OrderController.java:32-43 | an item map is read into a line copying id, name, price, quantity, image and restaurant, without imageUrl; a null element is a null fault, any other non-map a type fault |
| OrderApi.ExtractAllPerElement | food-backend/src/main/java/com/foodorder/food_backend/controller/OrderController.java:32-43 | the items read iff every element reads, one line per element in order |
| OrderApi.ExtractOrder | food-backend/src/main/java/com/foodorder/food_backend/controller/OrderController.java:27-43 | a read payload carries the user id, address, total and items; missing items fail |
| OrderApi.Views | food-backend/src/main/java/com/foodorder/food_backend/controller/OrderController.java:57-66 | one view per order, in order |
| OrderApi.PlaceOrderEndpoint | food-backend/src/main/java/com/foodorder/food_backend/controller/OrderController.java:25-50 | a payload that cannot be read is answered with an error, and no order, pending update or cart changes; a null user id reaches the service, whose own catch answers "error" with nothing stored and the cart untouched; otherwise the Placed order is stored under the fresh id with every other order kept, its three pending updates are scheduled, the user's cart is cleared and every other cart kept |
| OrderApi.GetOrdersEndpoint | food-backend/src/main/java/com/foodorder/food_backend/controller/OrderController.java:54-67 | each of the user's orders once, projected to id, total, address, date, status and items |
| OrderApi.UpdateStatusEndpoint | food-backend/src/main/java/com/foodorder/food_backend/controller/OrderController.java:71-93 | "Cancelled" in any case goes to the cancel and always answers success: a refused cancel changes nothing, an accepted one sets exactly that order to Cancelled, keeps every other order and drops its pending updates; any other status goes to the status update |
| RestaurantStore.RestaurantService.constructor | food-backend/src/main/java/com/foodorder/food_backend/service/RestaurantService.java:18-20 | no restaurants at start |
| RestaurantStore.RestaurantService.AddRestaurant | food-backend/src/main/java/com/foodorder/food_backend/service/RestaurantService.java:22-25 | the restaurant is stored under the fresh id, which is returned; the listing gains that id once, at an unspecified place, and keeps the others in their relative order |
| RestaurantStore.RestaurantService.GetAllRestaurants | food-backend/src/main/java/com/foodorder/food_backend/service/RestaurantService.java:27-36 | one entry per stored restaurant, in order, each with its document id |
| RestaurantStore.RestaurantService.FoodsOf | food-backend/src/main/java/com/foodorder/food_backend/service/RestaurantService.java:65-77 | empty for a missing restaurant or a null menu, the stored menu otherwise |
| RestaurantStore.RestaurantService.AddFoodToRestaurant | food-backend/src/main/java/com/foodorder/food_backend/service/RestaurantService.java:39-62 | a missing restaurant fails and changes nothing; otherwise its menu gains exactly the food under a fresh id, other restaurants unchanged |
| RestaurantStore.AddTwoFoods | food-backend/src/main/java/com/foodorder/food_backend/service/RestaurantService.java:49-56 | two additions append both foods in call order |
| Explore.TagMenu | src/app/explore/page.tsx:12-18 | one tagged food per menu entry with its fields copied and the restaurant's name; none for a missing menu |
| Explore.AllFoodsAppend | src/app/explore/page.tsx:10-19 | flattening keeps restaurant order |
| Explore.AllFoodsOfOne | src/app/explore/page.tsx:17-18 | a restaurant contributes exactly its tagged menu, nothing without a menu |
| Explore.AllFoodsLength | src/app/explore/page.tsx:10-19 | the flat list has as many foods as all menus together |
| Explore.BucketOfEachFood | src/app/explore/ExplorePageClient.tsx:25-27 | each food is in exactly one price bucket |
| Explore.BucketsPartition | src/app/explore/ExplorePageClient.tsx:25-27 | the buckets together hold every food as often as it occurs, each in list order |
| Explore.TopSearchesLowered | src/app/explore/ExplorePageClient.tsx:38-43 | the lower-cased terms are biryani, burger, pizza and fried rice |
| Explore.TopSearchMembership | src/app/explore/ExplorePageClient.tsx:38-43 | a food is in the row iff its lower-cased name contains one of the four terms; the row keeps list order |
| Explore.CategoryFoods | src/app/explore/ExplorePageClient.tsx:45-46 | no list exists iff no category (or an empty one) is selected |
| Explore.CategoryMembership | src/app/explore/ExplorePageClient.tsx:45-51 | the row holds exactly the matching foods, each as often as in the list, in list order |
| Explore.NameMatchesCategory | src/app/explore/ExplorePageClient.tsx:47-50 | a food named like the category matches it whatever its stored category |
| TrackOrder.FindStep | src/app/track-order/page.tsx:56-57 | the first step index with that name, or -1 when none has it |
| TrackOrder.CurrentStep | src/app/track-order/page.tsx:15-20 | a step from 1 to 4 naming the status, and 1 for any other status |
| TrackOrder.Track | src/app/track-order/page.tsx:51-67 | the raw date is orderDate, else date, and a missing or falsy (zero) raw date gives the current time; the ETA is 20 minutes later; the id falls back to orderId |
| TrackOrder.TrackAll | src/app/track-order/page.tsx:51-67 | one tracked order per fetched order, in order |
| TrackOrder.LatestOnlyKeeps | src/app/track-order/page.tsx:46-48 | with a latest id exactly the orders with that id stay, in order; without one all stay |
| TrackOrder.StepClassification | src/app/track-order/page.tsx:164-167 | on every tracked order each of the four steps is exactly one of completed, current and pending, and exactly one step is current |
| TrackOrder.StepNamesDistinct | src/app/track-order/page.tsx:15-20 | no two steps share a name |
| TrackOrder.StepsFollowStatus | src/app/track-order/page.tsx:56-57 | a status naming step k+1 draws the steps before it completed, that step current, the later ones pending, and shows the step list |
| TrackOrder.DeliveredRendering | src/app/track-order/page.tsx:122-167 | a Delivered order shows its first three steps completed, Delivered current, and no cancel button |
| TrackOrder.UnknownStatusAtFirstStep | src/app/track-order/page.tsx:56-57 | any other status, a missing one included, leaves Placed current and every later step pending |
| TrackOrder.MarkCancelled | src/app/track-order/page.tsx:94-98 | only orders with the id become Cancelled; the rest are unchanged |
| TrackOrder.MarkedHideCancel | src/app/track-order/page.tsx:260 | a marked order no longer offers the cancel button |
| TrackOrder.TrackingPage.constructor | src/app/track-order/page.tsx:23-25 | no orders, loading, no error |
| TrackOrder.TrackingPage.Load | src/app/track-order/page.tsx:27-76 | no user means "User not logged in." and no request; a non-OK answer sets "Failed to fetch orders" and a thrown request its own message (or "Failed to load orders" without one), both keeping the orders; otherwise the latest orders, tracked |
| TrackOrder.TrackingPage.CancelOrder | src/app/track-order/page.tsx:81-103 | a request is sent iff a user is stored; an accepted cancel marks that order |
| OrderHistory.Tabs | src/app/orders/page.tsx:65-70 | current iff Cooking/Out for Delivery/Placed, past iff Delivered/Cancelled, never both; each tab keeps every match in order |
| OrderHistory.OrderNumber | src/app/orders/page.tsx:79 | the first six characters (fewer for a short id), upper-cased |
| OrderHistory.OrderNumberIsUpper | src/app/orders/page.tsx:79 | an order number is already upper case |
| OrderHistory.OrderNumberPrefix | src/app/orders/page.tsx:79 | ids agreeing on six characters up to case show the same number |
| OrderHistory.Footer | src/app/orders/page.tsx:119-127 | Track Order to `/track-order/<id>` iff Cooking or Out for Delivery, Reorder otherwise |
| OrderHistory.TrackedOrdersAreCurrent | src/app/orders/page.tsx:65-67 | only current orders are trackable, and a Placed order, though current, gets Reorder |
| CheckoutScreen.AddressErrors | src/app/checkout/page.tsx:23-29 | no errors iff all five fields pass; each field's message appears iff that field fails |
| CheckoutScreen.PhoneNeedsTenDigits | src/app/checkout/page.tsx:25 | a phone that is not exactly ten digits, by length or by a non-digit, is refused with the phone message |
| CheckoutScreen.FilledStars | src/app/checkout/page.tsx:287-295 | with a rating from 0 to 5 exactly the first `rating` stars are filled |
| CheckoutScreen.FirstStarsCount | src/app/checkout/page.tsx:287-291 | the stars up to n that are filled number n |
| CheckoutScreen.Checkout.constructor | src/app/checkout/page.tsx:34-56 | the address step, no review, cart not cleared, rating 0, and the stored user id if not empty |
| CheckoutScreen.Checkout.SubmitAddress | src/app/checkout/page.tsx:61-65 | a valid address moves the screen to payment; an invalid one reports its errors and stays |
| CheckoutScreen.Checkout.PlaceOrder | src/app/checkout/page.tsx:67-94 | no user sends nothing; only an OK placement is followed by the cart clear, and only then do both flags go up |
| CheckoutScreen.Checkout.Rate | src/app/checkout/page.tsx:287-295 | the rating becomes the clicked star, and exactly the stars up to it are filled |
| CheckoutScreen.CheckoutBodyIsRejected | src/app/checkout/page.tsx:74-78 | the body the screen sends cannot be read: the controller faults on the missing total |
| CheckoutScreen.PlaceCheckoutBody | src/app/checkout/page.tsx:74-86 | posting the checkout body to the order endpoint yields the missing-total fault, stores no order and no scheduled update, and changes no cart |
| CheckoutScreen.OrderBodyRoundTrip | food-backend/src/main/java/com/foodorder/food_backend/controller/OrderController.java:27-43 | a complete body reads back as exactly the order it encodes, less image URLs |
| CheckoutScreen.EncodeLineRoundTrip | food-backend/src/main/java/com/foodorder/food_backend/controller/OrderController.java:32-43 | an encoded line reads back as itself without imageUrl |
| CheckoutScreen.EncodeLinesRoundTrip | food-backend/src/main/java/com/foodorder/food_backend/controller/OrderController.java:32-43 | encoded lines read back as themselves, in order, without imageUrl |
| BottomNav.ActiveItems | src/components/shared/BottomNav.tsx:22 | Home is active iff the path is "/"; every other item iff the path starts with its href, so "/explore-x" activates Explore |
| BottomNav.NotBothPrefixes | src/components/shared/BottomNav.tsx:8-13 | hrefs that differ at a position cannot both prefix one path |
| BottomNav.AtMostOneActive | src/components/shared/BottomNav.tsx:8-22 | for any path at most one item is active |

## Left out

- Money is exact `real`; the IEEE double arithmetic of JavaScript and Java (and the cents it can lose) is not modelled.
- Java `int` overflow is not modelled: quantities are unbounded, so `quantity + 1` never wraps and `intValue` never saturates.
- Case folding is ASCII only; `toLowerCase`/`toUpperCase`/`equalsIgnoreCase` on other letters are not modelled.
- Java `null` names and statuses are not modelled: strings that the source may leave null are plain strings, except where an `Option` is used.
- Firestore futures, failures and query order are not modelled: each collection is a map, and listing order is the order of the keys the loop visits.
- RestaurantStore.RestaurantService.AddRestaurant: Firestore lists documents by id and generated ids are random, so the new restaurant's place in the listing is left unspecified rather than modelled by id order.
- OrderApi.PlaceOrderEndpoint: for a null user id the reply's message (the storage client's exception text) is not modelled; the reply carries status "error" and no message.
- Exception messages of the JVM are abstracted: a failed payload read is a `Fault` value, not the exception's text.
- Scheduler timing, the 1/3/6-minute delays and races between a firing update and a cancel are left out; `FireNext` applies the next pending update whenever it is called.
- OrderStore.OrderService.CancelOrder: cancelling the scheduled tasks is modelled as dropping the order's pending list.
- Dates are not parsed or printed: `LocalDateTime` is a string parameter and JavaScript dates are epoch milliseconds.
- Field lengths of the address form count characters, not UTF-16 code units.
- Toasts are modelled by their message only; titles, descriptions and styles are left out.
- RestaurantStore.RestaurantService.AddFoodToRestaurant: the "Failed to add food item." branch is not modelled; it is reached only when the write fails, which the map model cannot do.
- The `@DocumentId` handling of foods nested in a menu and HTTP status codes are not modelled.
- OrderApi.UpdateStatusEndpoint: a body without a `status` field is not modelled; the new status is a string parameter.
- CartPricing.DiscountAmount: the recompute effect does not recheck `unlocked`, and the model follows that code rather than a design in which locking drops the discount.
- The cart screen never updates its user meta (it keeps its initial value: no orders, nothing spent, no used codes, first order); the pricing functions take the meta as a parameter, so every meta is covered.
- The cart screen's drag-scroll handlers, quantity controls and markup are left out; the explore screen's selected category is a parameter.
- The drawer's `disabled` flag on used offers is not modelled; `ClickOffer` goes through `handleSelectDiscount` as the click handler does.

## Findings

| source | as written | input that shows it | evidently intended | confidence | as-written member | corrected member |
|---|---|---|---|---|---|---|
| src/app/checkout/page.tsx:74-86 | the order request body is `{ userId }` alone; `OrderController.placeOrder` faults unboxing the missing `totalAmount` and answers an error body with HTTP 200, which the screen treats as success, clearing the cart with no order placed | any stored user id, e.g. "u1" | send the user id, address, total and cart lines, so that the endpoint places the order | not executed | CheckoutScreen.CheckoutBodyIsRejected | CheckoutScreen.OrderBodyRoundTrip |
