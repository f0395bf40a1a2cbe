/** Restaurants and their menus (food-backend/.../service/RestaurantService.java).
    The `restaurants` collection is a map from document id to restaurant plus
    the sequence of document ids in the order the collection lists them. */
module RestaurantStore {
  import opened Common

  /** A menu entry (the `Food` bean). */
  datatype Food = Food(id: Option<string>, name: string, price: real, category: Option<string>, imageUrl: Option<string>)

  /** A restaurant document (the `Restaurant` bean); `menu` is null only when
      a document stores it so. */
  datatype Restaurant = Restaurant(
    id: Option<string>,
    name: string,
    location: Option<string>,
    imageUrl: Option<string>,
    menu: Option<seq<Food>>)

  /** A restaurant's menu, reading null as empty. */
  function MenuOf(r: Restaurant): seq<Food>
  {
    if r.menu.Some? then r.menu.value else []
  }

  /** The message `addFoodToRestaurant` throws for an unknown restaurant. */
  function NotFound(restaurantId: string): string
  {
    "Restaurant not found with ID: " + restaurantId
  }

  class RestaurantService {
    var docs: map<string, Restaurant>
    /** The document ids, in the order a query lists them. */
    var ids: seq<string>

    /** Every document is listed exactly once. */
    ghost predicate Valid()
      reads this
    {
      (forall i, j :: 0 <= i < j < |ids| ==> ids[i] != ids[j]) &&
      (forall k :: k in docs <==> k in ids)
    }

    constructor ()
      ensures docs == map[] && ids == [] && Valid()
    {
      docs := map[];
      ids := [];
    }

    /** `addRestaurant`: stores the restaurant under a new generated id and
        returns that id.  A query lists documents by id, and generated ids
        are random, so where the new restaurant appears in the listing is
        left open: it is listed once, and the others keep their relative
        order. */
    method AddRestaurant(restaurant: Restaurant, freshId: string) returns (id: string)
      requires Valid() && freshId !in docs
      modifies this
      ensures Valid()
      ensures id == freshId
      ensures docs == old(docs)[freshId := restaurant]
      ensures multiset(ids) == multiset(old(ids)) + multiset{freshId}
      ensures IsSubsequence(old(ids), ids)
    {
      SubsequenceAppend(ids, [freshId]);
      docs := docs[freshId := restaurant];
      ids := ids + [freshId];
      id := freshId;
    }

    /** `getAllRestaurants`: one entry per stored restaurant, in listing
        order, each with its document id filled in. */
    method GetAllRestaurants() returns (list: seq<Restaurant>)
      requires Valid()
      ensures |list| == |ids|
      ensures forall i :: 0 <= i < |ids| ==> list[i] == docs[ids[i]].(id := Some(ids[i]))
      ensures forall k :: k in docs ==> exists i :: 0 <= i < |list| && list[i].id == Some(k)
    {
      list := [];
      var i := 0;
      while i < |ids|
        invariant 0 <= i <= |ids| && |list| == i
        invariant forall j :: 0 <= j < i ==> list[j] == docs[ids[j]].(id := Some(ids[j]))
      {
        list := list + [docs[ids[i]].(id := Some(ids[i]))];
        i := i + 1;
      }
      forall k | k in docs
        ensures exists i :: 0 <= i < |list| && list[i].id == Some(k)
      {
        var j :| 0 <= j < |ids| && ids[j] == k;
        assert list[j].id == Some(k);
      }
    }

    /** `getFoodsByRestaurant`: the stored menu, or nothing for an unknown
        restaurant or a null menu. */
    function FoodsOf(restaurantId: string): (foods: seq<Food>)
      reads this
      ensures restaurantId !in docs ==> foods == []
      ensures restaurantId in docs && docs[restaurantId].menu.None? ==> foods == []
      ensures restaurantId in docs && docs[restaurantId].menu.Some? ==> foods == docs[restaurantId].menu.value
    {
      if restaurantId in docs then MenuOf(docs[restaurantId]) else []
    }

    /** `addFoodToRestaurant`: fails for an unknown restaurant; otherwise
        appends the food, under a new generated id, to that restaurant's menu
        and rewrites only that document. */
    method AddFoodToRestaurant(restaurantId: string, food: Food, freshId: string) returns (r: Result<string, string>)
      requires Valid()
      modifies this`docs
      ensures Valid()
      ensures restaurantId !in old(docs) ==> r == Failure(NotFound(restaurantId)) && docs == old(docs)
      ensures restaurantId in old(docs) ==>
                r == Success("Food added successfully to menu.") &&
                docs == old(docs)[restaurantId := old(docs[restaurantId]).(menu := Some(MenuOf(old(docs[restaurantId])) + [food.(id := Some(freshId))]))]
      ensures restaurantId in old(docs) ==> FoodsOf(restaurantId) == old(FoodsOf(restaurantId)) + [food.(id := Some(freshId))]
      ensures forall k :: k != restaurantId ==> FoodsOf(k) == old(FoodsOf(k))
    {
      if restaurantId !in docs {
        return Failure(NotFound(restaurantId));
      }
      var restaurant := docs[restaurantId];
      var menu := if restaurant.menu.Some? then restaurant.menu.value else [];
      var added := food.(id := Some(freshId));
      menu := menu + [added];
      docs := docs[restaurantId := restaurant.(menu := Some(menu))];
      r := Success("Food added successfully to menu.");
    }
  }

  /** Two foods added one after the other end up at the end of the menu in
      the order they were added, each under its own id. */
  method AddTwoFoods(service: RestaurantService, restaurantId: string, a: Food, b: Food, idA: string, idB: string)
    requires service.Valid() && restaurantId in service.docs
    modifies service
    ensures service.FoodsOf(restaurantId) == old(service.FoodsOf(restaurantId)) + [a.(id := Some(idA)), b.(id := Some(idB))]
  {
    var first := service.AddFoodToRestaurant(restaurantId, a, idA);
    var second := service.AddFoodToRestaurant(restaurantId, b, idB);
  }
}
