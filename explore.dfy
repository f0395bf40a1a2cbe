/** The explore screen: the server page flattens every restaurant's menu into
    one list of foods tagged with their restaurant (src/app/explore/page.tsx),
    and the client sorts that list into price buckets, a top-searches row and
    a category row (src/app/explore/ExplorePageClient.tsx). */
module Explore {
  import opened Common
  import opened RestaurantStore

  /** A food as the explore screen receives it. */
  datatype TaggedFood = TaggedFood(
    id: Option<string>,
    name: string,
    price: real,
    category: Option<string>,
    imageUrl: Option<string>,
    restaurant: string)

  /** One food of a restaurant's menu, tagged with the restaurant's name. */
  function Tag(food: Food, restaurantName: string): TaggedFood
  {
    TaggedFood(food.id, food.name, food.price, food.category, food.imageUrl, restaurantName)
  }

  /** `restaurant.menu?.map(...) || []`. */
  function TagMenu(r: Restaurant): (tagged: seq<TaggedFood>)
    ensures r.menu.None? ==> tagged == []
    ensures |tagged| == |MenuOf(r)|
    ensures forall i :: 0 <= i < |tagged| ==> tagged[i] == Tag(MenuOf(r)[i], r.name)
  {
    TagAll(MenuOf(r), r.name)
  }

  function TagAll(menu: seq<Food>, restaurantName: string): (tagged: seq<TaggedFood>)
    ensures |tagged| == |menu|
    ensures forall i :: 0 <= i < |menu| ==> tagged[i] == Tag(menu[i], restaurantName)
  {
    if menu == [] then [] else [Tag(menu[0], restaurantName)] + TagAll(menu[1..], restaurantName)
  }

  /** `allFoods`: the `flatMap` over the restaurants. */
  function AllFoods(restaurants: seq<Restaurant>): seq<TaggedFood>
  {
    if restaurants == [] then [] else TagMenu(restaurants[0]) + AllFoods(restaurants[1..])
  }

  /** The number of menu entries over all restaurants. */
  function MenuCount(restaurants: seq<Restaurant>): nat
  {
    if restaurants == [] then 0 else |MenuOf(restaurants[0])| + MenuCount(restaurants[1..])
  }

  /** Flattening two lists of restaurants one after the other gives the
      concatenation of their foods: restaurant order is kept. */
  lemma {:induction false} AllFoodsAppend(a: seq<Restaurant>, b: seq<Restaurant>)
    ensures AllFoods(a + b) == AllFoods(a) + AllFoods(b)
  {
    if a == [] {
      assert a + b == b;
    } else {
      assert (a + b)[1..] == a[1..] + b;
      AllFoodsAppend(a[1..], b);
    }
  }

  /** A single restaurant contributes exactly its menu, in order, tagged
      with its name; a restaurant without a menu contributes nothing. */
  lemma AllFoodsOfOne(r: Restaurant)
    ensures AllFoods([r]) == TagMenu(r)
    ensures r.menu.None? ==> AllFoods([r]) == []
  {
    assert [r][1..] == [];
  }

  /** `allFoods` has one entry per menu entry of every restaurant. */
  lemma {:induction false} AllFoodsLength(restaurants: seq<Restaurant>)
    ensures |AllFoods(restaurants)| == MenuCount(restaurants)
  {
    if restaurants != [] {
      AllFoodsLength(restaurants[1..]);
    }
  }

  // ---------------------------------------------------------------------
  // Price buckets
  // ---------------------------------------------------------------------

  predicate Under60(f: TaggedFood) { f.price <= 60.0 }
  predicate Under200(f: TaggedFood) { 60.0 < f.price <= 200.0 }
  predicate Premium(f: TaggedFood) { f.price > 200.0 }

  /** Every food lands in exactly one price bucket. */
  lemma BucketOfEachFood(f: TaggedFood)
    ensures Under60(f) || Under200(f) || Premium(f)
    ensures !(Under60(f) && Under200(f)) && !(Under60(f) && Premium(f)) && !(Under200(f) && Premium(f))
  {
  }

  /** The three buckets split `allFoods`: together they hold every food as
      often as it occurs, and each keeps the list's order. */
  lemma BucketsPartition(all: seq<TaggedFood>)
    ensures multiset(Filter(all, Under60)) + multiset(Filter(all, Under200)) + multiset(Filter(all, Premium)) == multiset(all)
    ensures IsSubsequence(Filter(all, Under60), all)
    ensures IsSubsequence(Filter(all, Under200), all)
    ensures IsSubsequence(Filter(all, Premium), all)
  {
    forall x
      ensures (multiset(Filter(all, Under60)) + multiset(Filter(all, Under200)) + multiset(Filter(all, Premium)))[x] == multiset(all)[x]
    {
      FilterCount(all, Under60, x);
      FilterCount(all, Under200, x);
      FilterCount(all, Premium, x);
      BucketOfEachFood(x);
    }
    FilterIsSubsequence(all, Under60);
    FilterIsSubsequence(all, Under200);
    FilterIsSubsequence(all, Premium);
  }

  // ---------------------------------------------------------------------
  // Top searches and categories
  // ---------------------------------------------------------------------

  const TopSearches: seq<string> := ["Biryani", "Burger", "Pizza", "Fried Rice"]

  /** `searches.some(s => name.toLowerCase().includes(s.toLowerCase()))`. */
  predicate MatchesAny(name: string, searches: seq<string>)
  {
    exists i :: 0 <= i < |searches| && Contains(ToLower(name), ToLower(searches[i]))
  }

  predicate IsTopSearch(f: TaggedFood)
  {
    MatchesAny(f.name, TopSearches)
  }

  /** `topSearchFoods`. */
  function TopSearchFoods(all: seq<TaggedFood>): seq<TaggedFood>
  {
    Filter(all, IsTopSearch)
  }

  /** The top-search terms, lower-cased. */
  lemma TopSearchesLowered()
    ensures ToLower(TopSearches[0]) == "biryani"
    ensures ToLower(TopSearches[1]) == "burger"
    ensures ToLower(TopSearches[2]) == "pizza"
    ensures ToLower(TopSearches[3]) == "fried rice"
  {
  }

  /** A food is among the top searches exactly when its lower-cased name
      contains "biryani", "burger", "pizza" or "fried rice"; the row keeps
      the order of `allFoods`. */
  lemma TopSearchMembership(all: seq<TaggedFood>, f: TaggedFood)
    ensures f in TopSearchFoods(all) <==>
              f in all &&
              (Contains(ToLower(f.name), "biryani") || Contains(ToLower(f.name), "burger") ||
               Contains(ToLower(f.name), "pizza") || Contains(ToLower(f.name), "fried rice"))
    ensures IsSubsequence(TopSearchFoods(all), all)
  {
    FilterMembership(all, IsTopSearch, f);
    FilterIsSubsequence(all, IsTopSearch);
    TopSearchesLowered();
    if Contains(ToLower(f.name), "biryani") {
      assert Contains(ToLower(f.name), ToLower(TopSearches[0]));
    } else if Contains(ToLower(f.name), "burger") {
      assert Contains(ToLower(f.name), ToLower(TopSearches[1]));
    } else if Contains(ToLower(f.name), "pizza") {
      assert Contains(ToLower(f.name), ToLower(TopSearches[2]));
    } else if Contains(ToLower(f.name), "fried rice") {
      assert Contains(ToLower(f.name), ToLower(TopSearches[3]));
    }
  }

  /** The category filter's test: the category equals the selection up to
      case, or the name contains it up to case. */
  predicate MatchesCategory(f: TaggedFood, selected: string)
  {
    (f.category.Some? && ToLower(f.category.value) == ToLower(selected)) ||
    Contains(ToLower(f.name), ToLower(selected))
  }

  /** `filteredCategoryFoods`: no list at all while no category (or an empty
      one) is selected. */
  function CategoryFoods(all: seq<TaggedFood>, selected: Option<string>): (r: Option<seq<TaggedFood>>)
    ensures selected.None? || selected.value == "" ==> r.None?
    ensures selected.Some? && selected.value != "" ==> r.Some?
  {
    if selected.None? || selected.value == "" then None
    else Some(Filter(all, f => MatchesCategory(f, selected.value)))
  }

  /** With a category selected, the row holds exactly the foods that match
      it, in the order of `allFoods`, each as often as it occurs there. */
  lemma CategoryMembership(all: seq<TaggedFood>, selected: string, f: TaggedFood)
    requires selected != ""
    ensures CategoryFoods(all, Some(selected)).Some?
    ensures f in CategoryFoods(all, Some(selected)).value <==> f in all && MatchesCategory(f, selected)
    ensures multiset(CategoryFoods(all, Some(selected)).value)[f] == if MatchesCategory(f, selected) then multiset(all)[f] else 0
    ensures IsSubsequence(CategoryFoods(all, Some(selected)).value, all)
  {
    var p := (g: TaggedFood) => MatchesCategory(g, selected);
    assert CategoryFoods(all, Some(selected)).value == Filter(all, p);
    FilterMembership(all, p, f);
    FilterCount(all, p, f);
    FilterIsSubsequence(all, p);
  }

  /** Every category of the strip matches a food named after it, whatever
      its stored category. */
  lemma NameMatchesCategory(f: TaggedFood, selected: string)
    requires ToLower(f.name) == ToLower(selected)
    ensures MatchesCategory(f, selected)
  {
    ContainsAt(ToLower(f.name), ToLower(selected));
    assert OccursAt(ToLower(f.name), ToLower(selected), 0);
  }
}
