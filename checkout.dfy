/** The checkout screen (src/app/checkout/page.tsx): the delivery-address
    form and its validator, the address -> payment step, placing the order,
    and the star rating of the review dialog. */
module CheckoutScreen {
  import opened Common
  import opened OrderStore
  import opened OrderApi

  /** The address form's values. */
  datatype AddressForm = AddressForm(name: string, phone: string, street: string, city: string, postalCode: string)

  /** How a request of the screen ended: it threw (network error), or an HTTP
      answer came back, OK or not. */
  datatype Response = Threw | Answered(ok: bool)

  /** A request the screen sends. */
  datatype Request = PlaceRequestFor(userId: string) | ClearCartOf(userId: string)

  predicate IsDigit(c: char)
  {
    '0' <= c <= '9'
  }

  /** `/^[0-9]{10}$/`. */
  predicate ValidPhone(phone: string)
  {
    |phone| == 10 && forall i :: 0 <= i < |phone| ==> IsDigit(phone[i])
  }

  /** The messages `addressSchema` reports, one per failing field, in the
      order the fields are declared. */
  function AddressErrors(form: AddressForm): (errors: seq<string>)
    ensures errors == [] <==>
              |form.name| >= 3 && ValidPhone(form.phone) && |form.street| >= 5 && |form.city| >= 2 && |form.postalCode| >= 5
    ensures "Please enter full name." in errors <==> |form.name| < 3
    ensures "Enter a valid 10-digit phone number." in errors <==> !ValidPhone(form.phone)
    ensures "Please enter a valid street address." in errors <==> |form.street| < 5
    ensures "Please enter a valid city." in errors <==> |form.city| < 2
    ensures "Please enter a valid postal code." in errors <==> |form.postalCode| < 5
    ensures |errors| <= 5
  {
    (if |form.name| < 3 then ["Please enter full name."] else []) +
    (if !ValidPhone(form.phone) then ["Enter a valid 10-digit phone number."] else []) +
    (if |form.street| < 5 then ["Please enter a valid street address."] else []) +
    (if |form.city| < 2 then ["Please enter a valid city."] else []) +
    (if |form.postalCode| < 5 then ["Please enter a valid postal code."] else [])
  }

  /** A phone number with a non-digit, or of any length but ten, is refused. */
  lemma PhoneNeedsTenDigits(form: AddressForm)
    requires |form.phone| != 10 || exists i :: 0 <= i < |form.phone| && !IsDigit(form.phone[i])
    ensures AddressErrors(form) != []
    ensures "Enter a valid 10-digit phone number." in AddressErrors(form)
  {
  }

  /** Star `star` of the rating row is drawn filled. */
  predicate StarFilled(star: int, rating: int)
  {
    star <= rating
  }

  /** With a rating between 0 and 5, exactly `rating` of the five stars are
      filled, and they are the first ones. */
  lemma FilledStars(rating: int)
    requires 0 <= rating <= 5
    ensures (set star | 1 <= star <= 5 && StarFilled(star, rating)) == (set star | 1 <= star <= rating && StarFilled(star, rating))
    ensures |set star | 1 <= star <= 5 && StarFilled(star, rating)| == rating
  {
    FirstStarsCount(rating);
  }

  lemma {:induction false} FirstStarsCount(n: nat)
    ensures |set star | 1 <= star <= n && StarFilled(star, n)| == n
  {
    if n > 0 {
      var m := n - 1;
      FirstStarsCount(m);
      assert (set star | 1 <= star <= n && StarFilled(star, n)) ==
             (set star | 1 <= star <= m && StarFilled(star, m)) + {n};
    }
  }

  class Checkout {
    var userId: Option<string>
    var step: string
    var showReview: bool
    var cartCleared: bool
    var rating: int

    /** The initial state, once the stored user id has been read. */
    constructor (storedUserId: Option<string>)
      ensures step == "address" && !showReview && !cartCleared && rating == 0
      ensures userId == (if storedUserId.Some? && storedUserId.value != "" then storedUserId else None)
    {
      userId := if storedUserId.Some? && storedUserId.value != "" then storedUserId else None;
      step := "address";
      showReview := false;
      cartCleared := false;
      rating := 0;
    }

    /** Submitting the address form: the validator lets only a valid address
        through, and then the screen moves on to payment. */
    method SubmitAddress(form: AddressForm) returns (errors: seq<string>)
      modifies this`step
      ensures errors == AddressErrors(form)
      ensures errors == [] ==> step == "payment"
      ensures errors != [] ==> step == old(step)
    {
      errors := AddressErrors(form);
      if errors == [] {
        step := "payment";
      }
    }

    /** `onPlaceOrder`: `placed` is how the order request ended and `cleared`
        how the cart-clearing request ended.  Only an OK answer to the first
        request leads to the second, and only when that one returns do the
        flags go up. */
    method PlaceOrder(placed: Response, cleared: Response) returns (sent: seq<Request>, toast: string)
      modifies this`cartCleared, this`showReview
      ensures userId.None? ==>
                (sent == [] && toast == "User not found." &&
                 cartCleared == old(cartCleared) && showReview == old(showReview))
      ensures userId.Some? && placed == Answered(true) && cleared != Threw ==>
                (sent == [PlaceRequestFor(userId.value), ClearCartOf(userId.value)] &&
                 cartCleared && showReview && toast == "Your order will arrive soon.")
      ensures userId.Some? && placed == Answered(true) && cleared == Threw ==>
                (sent == [PlaceRequestFor(userId.value), ClearCartOf(userId.value)] &&
                 cartCleared == old(cartCleared) && showReview == old(showReview) && toast == "Something went wrong.")
      ensures userId.Some? && placed == Answered(false) ==>
                (sent == [PlaceRequestFor(userId.value)] && toast == "Failed to place order." &&
                 cartCleared == old(cartCleared) && showReview == old(showReview))
      ensures userId.Some? && placed == Threw ==>
                (sent == [PlaceRequestFor(userId.value)] && toast == "Something went wrong." &&
                 cartCleared == old(cartCleared) && showReview == old(showReview))
    {
      if userId.None? {
        return [], "User not found.";
      }
      sent := [PlaceRequestFor(userId.value)];
      if placed == Threw {
        return sent, "Something went wrong.";
      }
      if !placed.ok {
        return sent, "Failed to place order.";
      }
      sent := sent + [ClearCartOf(userId.value)];
      if cleared == Threw {
        return sent, "Something went wrong.";
      }
      cartCleared := true;
      showReview := true;
      toast := "Your order will arrive soon.";
    }

    /** Clicking star `star` of the review dialog. */
    method Rate(star: int)
      requires 1 <= star <= 5
      modifies this`rating
      ensures rating == star
      ensures forall s :: 1 <= s <= 5 ==> (StarFilled(s, rating) <==> s <= star)
    {
      rating := star;
    }
  }

  // ---------------------------------------------------------------------
  // The order request body
  // ---------------------------------------------------------------------

  /** The body `onPlaceOrder` sends: the user id and nothing else. */
  function CheckoutBody(userId: string): map<string, Json>
  {
    map["userId" := JString(userId)]
  }

  /** The body as the screen builds it cannot be read: it has no
      `totalAmount`, so reading it stops with a null to unbox before any
      order exists.  The endpoint answers that fault with an error body
      under HTTP 200, which `onPlaceOrder` takes for success. */
  lemma CheckoutBodyIsRejected(userId: string)
    ensures ExtractOrder(CheckoutBody(userId)) == Failure(NullValue("totalAmount"))
  {
    var body := CheckoutBody(userId);
    assert Get(body, "userId") == JString(userId);
    assert Get(body, "address") == JNull;
    assert Get(body, "totalAmount") == JNull;
  }

  /** Posting the checkout body to the order endpoint is answered with the
      missing-total fault: no order and no scheduled update is recorded, and
      no cart changes. */
  method PlaceCheckoutBody(service: OrderService, userId: string, freshId: string, now: string)
    returns (result: PlaceResult)
    requires service.Valid()
    requires forall u :: freshId !in service.OrdersOf(u)
    requires freshId !in service.scheduled
    modifies service, service.cartService
    ensures service.Valid()
    ensures result == Faulted(NullValue("totalAmount"))
    ensures service.orders == old(service.orders) && service.scheduled == old(service.scheduled)
    ensures service.cartService.carts == old(service.cartService.carts)
  {
    CheckoutBodyIsRejected(userId);
    result := PlaceOrderEndpoint(service, CheckoutBody(userId), freshId, now);
  }

  function OptionalText(s: Option<string>): Json
  {
    if s.Some? then JString(s.value) else JNull
  }

  /** One line of a complete order body. */
  function EncodeLine(line: LineItem): Json
  {
    JObject(map[
      "id" := OptionalText(line.id),
      "name" := OptionalText(line.name),
      "price" := JNumber(line.price),
      "quantity" := JNumber(line.quantity as real),
      "image" := OptionalText(line.image),
      "restaurant" := OptionalText(line.restaurant)])
  }

  function EncodeLines(lines: seq<LineItem>): (r: seq<Json>)
    ensures |r| == |lines| && forall i :: 0 <= i < |lines| ==> r[i] == EncodeLine(lines[i])
  {
    if lines == [] then [] else [EncodeLine(lines[0])] + EncodeLines(lines[1..])
  }

  /** A complete order body: the user, the address, the total and the cart
      lines, in the shape the endpoint reads. */
  function OrderBody(userId: string, address: string, totalAmount: real, lines: seq<LineItem>): map<string, Json>
  {
    map["userId" := JString(userId), "address" := JString(address),
        "totalAmount" := JNumber(totalAmount), "items" := JList(EncodeLines(lines))]
  }

  lemma OptionalTextReads(s: Option<string>, field: string)
    ensures AsString(OptionalText(s), field) == Success(s)
  {
  }

  /** A line survives the trip through JSON, except `imageUrl`, which the
      endpoint does not read. */
  lemma EncodeLineRoundTrip(line: LineItem)
    ensures ExtractItem(EncodeLine(line)) == Success(line.(imageUrl := None))
  {
    var m := EncodeLine(line).fields;
    OptionalTextReads(line.id, "id");
    OptionalTextReads(line.name, "name");
    OptionalTextReads(line.image, "image");
    OptionalTextReads(line.restaurant, "restaurant");
    assert Get(m, "id") == OptionalText(line.id);
    assert Get(m, "name") == OptionalText(line.name);
    assert Get(m, "price") == JNumber(line.price);
    assert Get(m, "quantity") == JNumber(line.quantity as real);
    assert Get(m, "image") == OptionalText(line.image);
    assert Get(m, "restaurant") == OptionalText(line.restaurant);
    assert IntValue(line.quantity as real) == line.quantity;
  }

  function WithoutImageUrl(lines: seq<LineItem>): (r: seq<LineItem>)
    ensures |r| == |lines| && forall i :: 0 <= i < |lines| ==> r[i] == lines[i].(imageUrl := None)
  {
    if lines == [] then [] else [lines[0].(imageUrl := None)] + WithoutImageUrl(lines[1..])
  }

  lemma {:induction false} EncodeLinesRoundTrip(lines: seq<LineItem>)
    ensures ExtractAll(EncodeLines(lines)) == Success(WithoutImageUrl(lines))
  {
    if lines != [] {
      EncodeLineRoundTrip(lines[0]);
      EncodeLinesRoundTrip(lines[1..]);
      assert EncodeLines(lines)[1..] == EncodeLines(lines[1..]);
    }
  }

  /** A complete body is read back as exactly the order it describes, so the
      endpoint places it. */
  lemma OrderBodyRoundTrip(userId: string, address: string, totalAmount: real, lines: seq<LineItem>)
    ensures ExtractOrder(OrderBody(userId, address, totalAmount, lines)) ==
              Success(PlaceRequest(Some(userId), Some(address), totalAmount, WithoutImageUrl(lines)))
  {
    var body := OrderBody(userId, address, totalAmount, lines);
    assert Get(body, "userId") == JString(userId);
    assert Get(body, "address") == JString(address);
    assert Get(body, "totalAmount") == JNumber(totalAmount);
    assert Get(body, "items") == JList(EncodeLines(lines));
    EncodeLinesRoundTrip(lines);
  }
}
