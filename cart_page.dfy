/** The state of the cart screen (src/app/cart/CartPageClient.tsx) and the
    handlers and effects that update it: the items received from the cart
    service, the subtotal effect, the discount-recompute effect and the
    offer toggle.  The pricing rules themselves live in `CartPricing`. */
module CartScreen {
  import opened Common
  import opened CartPricing

  class CartPage {
    var items: seq<CartLine>
    var subtotal: real
    var selectedDiscount: Option<string>
    var discountAmount: real
    var meta: UserMeta

    /** The initial React state. */
    constructor ()
      ensures items == [] && subtotal == 0.0 && meta == InitialMeta
      ensures selectedDiscount == None && discountAmount == 0.0
      ensures Settled()
    {
      items := [];
      subtotal := 0.0;
      selectedDiscount := None;
      discountAmount := 0.0;
      meta := InitialMeta;
    }

    /** The derived state both effects have caught up with. */
    predicate Settled()
      reads this
    {
      subtotal == Subtotal(items) &&
      discountAmount == DiscountAmount(selectedDiscount, subtotal, items, meta)
    }

    /** `availableDiscounts` for the current render. */
    function Offers(): (offers: seq<Offer>)
      reads this
      ensures |offers| == 5
    {
      Catalogue(subtotal, meta)
    }

    /** `sortedDiscounts`, the order the drawer lists the offers in. */
    function SortedDiscounts(): (r: seq<Offer>)
      reads this
      ensures |r| == 5
      ensures UnlockedFirst(r)
    {
      SortedIsPermutation(Offers());
      SortedOffersIsStable(Offers());
      SortedOffers(Offers())
    }

    /** `total`, as displayed. */
    function Total(): (t: real)
      reads this
      ensures t >= 0.0
      ensures t == 0.0 || t == subtotal - discountAmount + DeliveryFee
    {
      CartPricing.Total(subtotal, discountAmount)
    }

    /** `setItems(data.cartItems || [])` after a fetch or a cart-service reply. */
    method ReceiveItems(newItems: seq<CartLine>)
      modifies this`items
      ensures items == newItems
    {
      items := newItems;
    }

    /** The subtotal effect, run whenever `items` changes. */
    method RecomputeSubtotal()
      modifies this`subtotal
      ensures subtotal == Subtotal(items)
    {
      subtotal := Subtotal(items);
    }

    /** The discount effect, run whenever the selection, subtotal, items or
        metadata change.  It looks the code up in the catalogue and applies it
        without asking whether the offer is still unlocked. */
    method RecomputeDiscount()
      modifies this`discountAmount
      ensures discountAmount == DiscountAmount(selectedDiscount, subtotal, items, meta)
    {
      if selectedDiscount.None? {
        discountAmount := 0.0;
        return;
      }
      var choice := FindOffer(Offers(), selectedDiscount.value);
      if choice.None? {
        discountAmount := 0.0;
        return;
      }
      var highest := Highest(items);
      var amt := Calc(choice.value.rule, subtotal, highest);
      discountAmount := MaxReal(0.0, Round2(amt));
    }

    /** Both effects after a change of items. */
    method Refresh()
      modifies this`subtotal, this`discountAmount
      ensures Settled()
    {
      RecomputeSubtotal();
      RecomputeDiscount();
    }

    /** `handleSelectDiscount(code, unlocked)`: a locked offer only raises a
        toast; otherwise the selection toggles, and clearing it zeroes the
        discount at once. */
    method SelectDiscount(code: string, unlocked: bool)
      modifies this`selectedDiscount, this`discountAmount
      ensures !unlocked ==> selectedDiscount == old(selectedDiscount) && discountAmount == old(discountAmount)
      ensures unlocked ==> selectedDiscount == Toggle(old(selectedDiscount), code)
      ensures unlocked && (selectedDiscount == None || code == "") ==> discountAmount == 0.0
      ensures unlocked && selectedDiscount != None && code != "" ==> discountAmount == old(discountAmount)
    {
      if !unlocked {
        return;
      }
      var next := Toggle(selectedDiscount, code);
      selectedDiscount := next;
      if next == None || next.value == "" {
        discountAmount := 0.0;
      }
    }

    /** A click on the i-th offer of the drawer, followed by the discount
        effect: the offer's own `unlocked` flag decides whether the click
        counts. */
    method ClickOffer(i: nat) returns (d: Offer)
      requires i < 5
      modifies this`selectedDiscount, this`discountAmount
      ensures d == old(SortedDiscounts())[i]
      ensures selectedDiscount == if d.unlocked then Toggle(old(selectedDiscount), d.code) else old(selectedDiscount)
      ensures discountAmount == DiscountAmount(selectedDiscount, subtotal, items, meta)
      ensures old(subtotal == Subtotal(items)) ==> Settled()
    {
      d := SortedDiscounts()[i];
      SelectDiscount(d.code, d.unlocked);
      RecomputeDiscount();
    }
  }

  /** Clicking a locked offer changes neither the selection nor the discount
      of a settled screen. */
  method ClickLockedOfferIsNoOp(page: CartPage, i: nat)
    requires i < 5 && page.Settled() && !page.SortedDiscounts()[i].unlocked
    modifies page
    ensures page.selectedDiscount == old(page.selectedDiscount)
    ensures page.discountAmount == old(page.discountAmount)
  {
    var d := page.ClickOffer(i);
  }

  /** Clicking the same unlocked, unselected offer twice leaves nothing selected
      and no discount on the total. */
  method ClickTwiceClears(page: CartPage, i: nat)
    requires i < 5 && page.Settled()
    requires page.SortedDiscounts()[i].unlocked
    requires page.selectedDiscount != Some(page.SortedDiscounts()[i].code)
    modifies page
    ensures page.selectedDiscount == None && page.discountAmount == 0.0
    ensures page.Total() == CartPricing.Total(page.subtotal, 0.0)
  {
    var first := page.ClickOffer(i);
    assert page.SortedDiscounts() == old(page.SortedDiscounts());
    var second := page.ClickOffer(i);
  }
}
