/** The server-side cart (food-backend/.../service/CartService.java).  Each
    user's Firestore collection `users/{userId}/cart` is a map from document id
    to item; fresh UUIDs are parameters that are not yet used as keys. */
module CartStore {
  import opened Common

  /** The `CartItem` bean as stored in a cart document. */
  datatype CartItem = CartItem(
    id: string,
    name: string,
    price: real,
    imageUrl: Option<string>,
    restaurant: Option<string>,
    quantity: int,
    image: Option<string>)

  /** The documents of one user's cart collection, by document id. */
  type Cart = map<string, CartItem>

  /** The body of a successful add, update or remove reply.  It has no
      `differentRestaurant` flag: the service never checks restaurants. */
  datatype CartResponse = CartResponse(status: string, message: Option<string>, cartItems: seq<CartItem>)

  /** The two fields the add query filters on. */
  predicate SameProduct(a: CartItem, b: CartItem)
  {
    a.name == b.name && a.restaurant == b.restaurant
  }

  /** What every operation keeps: a document is keyed by its item's id, every
      quantity is at least 1, and no two documents hold the same product. */
  predicate WellFormed(cart: Cart)
  {
    (forall k :: k in cart ==> cart[k].id == k && cart[k].quantity >= 1) &&
    (forall k1, k2 :: k1 in cart && k2 in cart && SameProduct(cart[k1], cart[k2]) ==> k1 == k2)
  }

  /** `items` lists every document of `cart` exactly once (in some order). */
  predicate Lists(items: seq<CartItem>, cart: Cart)
  {
    (forall i :: 0 <= i < |items| ==> items[i].id in cart && cart[items[i].id] == items[i]) &&
    (forall i, j :: 0 <= i < j < |items| ==> items[i].id != items[j].id) &&
    (forall k :: k in cart ==> exists i :: 0 <= i < |items| && items[i].id == k)
  }

  /** Some document already holds the same product as `item`. */
  predicate HasMatch(cart: Cart, item: CartItem)
  {
    exists k :: k in cart && SameProduct(cart[k], item)
  }

  /** The cart after `addToCart(item)`: the matching document's quantity goes
      up by one, or a new document with a fresh id and quantity 1 is added. */
  ghost function Added(cart: Cart, item: CartItem, freshId: string): Cart
  {
    if HasMatch(cart, item) then
      var k :| k in cart && SameProduct(cart[k], item);
      cart[k := cart[k].(quantity := cart[k].quantity + 1)]
    else
      cart[freshId := item.(id := freshId, quantity := 1)]
  }

  /** The cart after `updateQuantity(id, quantity)`: a quantity of 0 or less
      deletes the document; otherwise its quantity is overwritten.  An update
      of a missing document fails inside Firestore without being awaited, so
      the cart is unchanged. */
  function WithQuantity(cart: Cart, id: string, quantity: int): (r: Cart)
    ensures quantity <= 0 ==> r == cart - {id}
    ensures quantity > 0 ==> r.Keys == cart.Keys
    ensures quantity > 0 && id in cart ==> r[id] == cart[id].(quantity := quantity)
    ensures forall k :: k in r && k != id ==> k in cart && r[k] == cart[k]
  {
    if quantity <= 0 then cart - {id}
    else if id in cart then cart[id := cart[id].(quantity := quantity)]
    else cart
  }

  /** In a well-formed cart at most one document matches a product. */
  lemma MatchIsUnique(cart: Cart, item: CartItem, k1: string, k2: string)
    requires WellFormed(cart)
    requires k1 in cart && SameProduct(cart[k1], item)
    requires k2 in cart && SameProduct(cart[k2], item)
    ensures k1 == k2
  {
    assert SameProduct(cart[k1], cart[k2]);
  }

  /** Adding a product that is already in the cart raises that document's
      quantity by exactly one and changes nothing else. */
  lemma AddMerges(cart: Cart, item: CartItem, freshId: string, k: string)
    requires WellFormed(cart)
    requires k in cart && SameProduct(cart[k], item)
    ensures Added(cart, item, freshId) == cart[k := cart[k].(quantity := cart[k].quantity + 1)]
    ensures Added(cart, item, freshId).Keys == cart.Keys
  {
    var k' :| k' in cart && SameProduct(cart[k'], item) && Added(cart, item, freshId) == cart[k' := cart[k'].(quantity := cart[k'].quantity + 1)];
    MatchIsUnique(cart, item, k, k');
  }

  /** Adding a new product inserts exactly one document, under the fresh id,
      with quantity 1; the caller's id and quantity are ignored. */
  lemma AddInserts(cart: Cart, item: CartItem, freshId: string)
    requires freshId !in cart && !HasMatch(cart, item)
    ensures Added(cart, item, freshId).Keys == cart.Keys + {freshId}
    ensures Added(cart, item, freshId)[freshId] == item.(id := freshId, quantity := 1)
    ensures forall k :: k in cart ==> Added(cart, item, freshId)[k] == cart[k]
    ensures |Added(cart, item, freshId)| == |cart| + 1
  {
  }

  /** Every cart operation keeps the cart well formed. */
  lemma AddKeepsWellFormed(cart: Cart, item: CartItem, freshId: string)
    requires WellFormed(cart) && freshId !in cart
    ensures WellFormed(Added(cart, item, freshId))
  {
    if HasMatch(cart, item) {
      var k :| k in cart && SameProduct(cart[k], item);
      AddMerges(cart, item, freshId, k);
    } else {
      var r := Added(cart, item, freshId);
      forall k1, k2 | k1 in r && k2 in r && SameProduct(r[k1], r[k2])
        ensures k1 == k2
      {
        if k1 == freshId && k2 != freshId {
          assert SameProduct(cart[k2], item);
        } else if k2 == freshId && k1 != freshId {
          assert SameProduct(cart[k1], item);
        }
      }
    }
  }

  lemma WithQuantityKeepsWellFormed(cart: Cart, id: string, quantity: int)
    requires WellFormed(cart)
    ensures WellFormed(WithQuantity(cart, id, quantity))
  {
    var r := WithQuantity(cart, id, quantity);
    forall k1, k2 | k1 in r && k2 in r && SameProduct(r[k1], r[k2])
      ensures k1 == k2
    {
      assert SameProduct(cart[k1], cart[k2]);
    }
  }

  lemma RemovalKeepsWellFormed(cart: Cart, id: string)
    requires WellFormed(cart)
    ensures WellFormed(cart - {id})
  {
    WithQuantityKeepsWellFormed(cart, id, 0);
  }

  /** Nothing checks that a cart holds one restaurant's dishes: adding a dish
      of another restaurant keeps the first dish and adds the second. */
  lemma RestaurantsCanMix(cart: Cart, item: CartItem, freshId: string, k: string)
    requires WellFormed(cart) && freshId !in cart
    requires k in cart && cart[k].restaurant != item.restaurant
    ensures k in Added(cart, item, freshId) && Added(cart, item, freshId)[k].restaurant == cart[k].restaurant
    ensures exists k' :: k' in Added(cart, item, freshId) && Added(cart, item, freshId)[k'].restaurant == item.restaurant
  {
    if HasMatch(cart, item) {
      var m :| m in cart && SameProduct(cart[m], item);
      AddMerges(cart, item, freshId, m);
      assert Added(cart, item, freshId)[m].restaurant == item.restaurant;
    } else {
      AddInserts(cart, item, freshId);
    }
  }

  /** The cart documents of every user. */
  class CartService {
    var carts: map<string, Cart>

    ghost predicate Valid()
      reads this
    {
      forall u :: u in carts ==> WellFormed(carts[u])
    }

    /** A user's cart collection; a user with no documents has an empty one. */
    function CartOf(userId: string): Cart
      reads this
    {
      if userId in carts then carts[userId] else map[]
    }

    constructor ()
      ensures carts == map[] && Valid()
    {
      carts := map[];
    }

    /** `getCartItems`: every document of the user's cart, each once.  The
        order Firestore returns them in (by document id) is not modelled. */
    method GetCartItems(userId: string) returns (items: seq<CartItem>)
      requires Valid()
      ensures Lists(items, CartOf(userId))
    {
      var cart := CartOf(userId);
      assert WellFormed(cart);
      var remaining := cart.Keys;
      items := [];
      while remaining != {}
        invariant remaining <= cart.Keys
        invariant forall i :: 0 <= i < |items| ==>
                    items[i].id in cart && items[i].id !in remaining && cart[items[i].id] == items[i]
        invariant forall i, j :: 0 <= i < j < |items| ==> items[i].id != items[j].id
        invariant forall k :: k in cart && k !in remaining ==> exists i :: 0 <= i < |items| && items[i].id == k
        decreases remaining
      {
        var k :| k in remaining;
        ghost var before := items;
        items := items + [cart[k]];
        remaining := remaining - {k};
        assert items[|before|].id == k;
        forall k' | k' in cart && k' !in remaining
          ensures exists i :: 0 <= i < |items| && items[i].id == k'
        {
          if k' != k {
            var i :| 0 <= i < |before| && before[i].id == k';
            assert items[i].id == k';
          }
        }
      }
    }

    /** `addToCart(userId, item)`. */
    method AddToCart(userId: string, item: CartItem, freshId: string) returns (resp: CartResponse)
      requires Valid() && freshId !in CartOf(userId)
      modifies this
      ensures Valid()
      ensures carts == old(carts)[userId := Added(old(CartOf(userId)), item, freshId)]
      ensures resp.status == "success" && Lists(resp.cartItems, CartOf(userId))
      ensures resp.message == Some(if HasMatch(old(CartOf(userId)), item) then "Item quantity updated" else "Item added to cart")
    {
      var cart := CartOf(userId);
      var message;
      if k :| k in cart && SameProduct(cart[k], item) {
        var existing := cart[k];
        AddMerges(cart, item, freshId, k);
        carts := carts[userId := cart[k := existing.(quantity := existing.quantity + 1)]];
        message := "Item quantity updated";
      } else {
        carts := carts[userId := cart[freshId := item.(id := freshId, quantity := 1)]];
        message := "Item added to cart";
      }
      AddKeepsWellFormed(cart, item, freshId);
      var listed := GetCartItems(userId);
      resp := CartResponse("success", Some(message), listed);
    }

    /** `updateQuantity(userId, id, quantity)`. */
    method UpdateQuantity(userId: string, id: string, quantity: int) returns (resp: CartResponse)
      requires Valid()
      modifies this
      ensures Valid()
      ensures carts == old(carts)[userId := WithQuantity(old(CartOf(userId)), id, quantity)]
      ensures resp.status == "success" && resp.message == None && Lists(resp.cartItems, CartOf(userId))
    {
      var cart := CartOf(userId);
      if quantity <= 0 {
        carts := carts[userId := cart - {id}];
      } else if id in cart {
        carts := carts[userId := cart[id := cart[id].(quantity := quantity)]];
      } else {
        carts := carts[userId := cart];
      }
      WithQuantityKeepsWellFormed(cart, id, quantity);
      var listed := GetCartItems(userId);
      resp := CartResponse("success", None, listed);
    }

    /** `removeItem(userId, id)`: deletes that one document, if present. */
    method RemoveItem(userId: string, id: string) returns (resp: CartResponse)
      requires Valid()
      modifies this
      ensures Valid()
      ensures carts == old(carts)[userId := old(CartOf(userId)) - {id}]
      ensures resp.status == "success" && resp.message == None && Lists(resp.cartItems, CartOf(userId))
    {
      var cart := CartOf(userId);
      carts := carts[userId := cart - {id}];
      var listed := GetCartItems(userId);
      resp := CartResponse("success", None, listed);
    }

    /** `clearCart(userId)`: reads the documents and deletes them one by one;
        no other user's cart changes. */
    method ClearCart(userId: string)
      requires Valid()
      modifies this
      ensures Valid()
      ensures CartOf(userId) == map[]
      ensures carts - {userId} == old(carts) - {userId}
    {
      var docs := GetCartItems(userId);
      ghost var original := CartOf(userId);
      var i := 0;
      while i < |docs|
        invariant 0 <= i <= |docs|
        invariant Valid()
        invariant carts - {userId} == old(carts) - {userId}
        invariant CartOf(userId).Keys <= original.Keys
        invariant forall j :: 0 <= j < i ==> docs[j].id !in CartOf(userId)
      {
        RemovalKeepsWellFormed(CartOf(userId), docs[i].id);
        carts := carts[userId := CartOf(userId) - {docs[i].id}];
        i := i + 1;
      }
      forall k | k in original
        ensures k !in CartOf(userId)
      {
        var j :| 0 <= j < |docs| && docs[j].id == k;
      }
      assert CartOf(userId).Keys == {};
    }
  }
}
