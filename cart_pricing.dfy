/** The pricing rules of the cart screen (src/app/cart/CartPageClient.tsx):
    subtotal, highest line amount, the five-offer discount catalogue, the
    ranking of offers, the discount amount rounded to cents and the total.
    Money is an exact `real`; the source's IEEE doubles are not reproduced. */
module CartPricing {
  import opened Common

  /** One line of the cart as the client receives it from the cart service. */
  datatype CartLine = CartLine(
    id: string,
    name: string,
    price: real,
    quantity: int,
    restaurant: Option<string>,
    imageUrl: Option<string>)

  /** The loyalty data the eligibility rules read. */
  datatype UserMeta = UserMeta(
    totalOrders: int,
    totalSpent: real,
    usedDiscounts: seq<string>,
    isFirstOrder: bool)

  /** The metadata the screen starts with before anything is loaded. */
  const InitialMeta := UserMeta(0, 0.0, [], true)

  const DeliveryFee: real := 15.0

  function MinReal(a: real, b: real): real { if a <= b then a else b }

  function MaxReal(a: real, b: real): real { if a >= b then a else b }

  // ---------------------------------------------------------------------
  // Subtotal and highest line
  // ---------------------------------------------------------------------

  function LineAmount(line: CartLine): real
  {
    line.price * line.quantity as real
  }

  /** The `reduce` over the items, a left fold starting from 0. */
  function Subtotal(items: seq<CartLine>): real
  {
    if items == [] then 0.0
    else Subtotal(items[..|items| - 1]) + LineAmount(items[|items| - 1])
  }

  /** The subtotal of two carts put together is the sum of their subtotals,
      so the fold really is the sum of the line amounts in any grouping. */
  lemma {:induction false} SubtotalAppend(a: seq<CartLine>, b: seq<CartLine>)
    ensures Subtotal(a + b) == Subtotal(a) + Subtotal(b)
    decreases |b|
  {
    if b == [] {
      assert a + b == a;
    } else {
      var n := |b| - 1;
      assert (a + b)[..|a + b| - 1] == a + b[..n];
      assert (a + b)[|a + b| - 1] == b[n];
      SubtotalAppend(a, b[..n]);
    }
  }

  /** The subtotal of a cart is its first line's amount plus the subtotal of the rest. */
  lemma SubtotalCons(items: seq<CartLine>)
    requires items != []
    ensures Subtotal(items) == LineAmount(items[0]) + Subtotal(items[1..])
  {
    assert items == [items[0]] + items[1..];
    SubtotalAppend([items[0]], items[1..]);
    assert [items[0]][..0] == [];
  }

  predicate NonNegativeLines(items: seq<CartLine>)
  {
    forall i :: 0 <= i < |items| ==> items[i].price >= 0.0 && items[i].quantity >= 0
  }

  /** With non-negative prices and quantities the subtotal is never negative. */
  lemma {:induction false} SubtotalNonNegative(items: seq<CartLine>)
    requires NonNegativeLines(items)
    ensures Subtotal(items) >= 0.0
  {
    if items != [] {
      var last := items[|items| - 1];
      assert last.price >= 0.0 && last.quantity as real >= 0.0;
      assert LineAmount(last) >= 0.0;
      SubtotalNonNegative(items[..|items| - 1]);
    }
  }

  /** `Math.max(...items.map(i => i.price * i.quantity))` on a non-empty cart. */
  function MaxLineAmount(items: seq<CartLine>): real
    requires items != []
  {
    if |items| == 1 then LineAmount(items[0])
    else MaxReal(LineAmount(items[0]), MaxLineAmount(items[1..]))
  }

  /** The highest line amount, 0 for an empty cart. */
  function Highest(items: seq<CartLine>): real
  {
    if items == [] then 0.0 else MaxLineAmount(items)
  }

  /** The highest line amount bounds every line amount and is attained by one
      of them (or is 0 for an empty cart). */
  lemma {:induction false} HighestIsMaximum(items: seq<CartLine>)
    ensures forall i :: 0 <= i < |items| ==> LineAmount(items[i]) <= Highest(items)
    ensures items == [] ==> Highest(items) == 0.0
    ensures items != [] ==> exists i :: 0 <= i < |items| && LineAmount(items[i]) == Highest(items)
  {
    if |items| == 1 {
      assert LineAmount(items[0]) == Highest(items);
    } else if |items| > 1 {
      HighestIsMaximum(items[1..]);
      var j :| 0 <= j < |items[1..]| && LineAmount(items[1..][j]) == Highest(items[1..]);
      assert items[1..][j] == items[j + 1];
      if LineAmount(items[0]) >= Highest(items[1..]) {
        assert LineAmount(items[0]) == Highest(items);
      } else {
        assert LineAmount(items[j + 1]) == Highest(items);
      }
      forall i | 0 <= i < |items|
        ensures LineAmount(items[i]) <= Highest(items)
      {
        if i > 0 {
          assert items[i] == items[1..][i - 1];
        }
      }
    }
  }

  /** With non-negative lines the highest line never exceeds the subtotal. */
  lemma {:induction false} HighestAtMostSubtotal(items: seq<CartLine>)
    requires NonNegativeLines(items)
    ensures Highest(items) <= Subtotal(items)
  {
    if items != [] {
      SubtotalCons(items);
      var head := items[0];
      assert head.price >= 0.0 && head.quantity as real >= 0.0;
      assert LineAmount(head) >= 0.0;
      assert NonNegativeLines(items[1..]) by {
        forall i | 0 <= i < |items[1..]|
          ensures items[1..][i].price >= 0.0 && items[1..][i].quantity >= 0
        {
          assert items[1..][i] == items[i + 1];
        }
      }
      SubtotalNonNegative(items[1..]);
      if |items| > 1 {
        HighestAtMostSubtotal(items[1..]);
      }
    }
  }

  // ---------------------------------------------------------------------
  // The offer catalogue
  // ---------------------------------------------------------------------

  /** How an offer's `calc` turns (subtotal, highest) into a value. */
  datatype ValueRule =
    | ShareOfSubtotal(rate: real)                 // subtotal * rate
    | ShareOfHighestCapped(rate: real, cap: real) // Math.min(highest * rate, cap)

  datatype Offer = Offer(
    code: string,
    caption: string,  // the offer's `label`
    unlocked: bool,
    rule: ValueRule,
    lockedReason: Option<string>)

  function Calc(rule: ValueRule, subtotal: real, highest: real): real
  {
    match rule
    case ShareOfSubtotal(rate) => subtotal * rate
    case ShareOfHighestCapped(rate, cap) => MinReal(highest * rate, cap)
  }

  const Codes: seq<string> := ["FIRST_ORDER", "ABOVE_149", "ABOVE_299", "LOYAL_25", "LOYAL_40"]

  /** The five offers, in catalogue order, with their eligibility for the
      given subtotal and user metadata.  A code the user has already used is
      always locked, whatever its own condition says. */
  function Catalogue(subtotal: real, meta: UserMeta): (offers: seq<Offer>)
    ensures |offers| == |Codes| == 5
    ensures forall i :: 0 <= i < |offers| ==> offers[i].code == Codes[i]
    ensures forall i :: 0 <= i < |offers| && offers[i].code in meta.usedDiscounts ==> !offers[i].unlocked
  {
    [ Offer("FIRST_ORDER", "50% off — first order",
            meta.isFirstOrder && "FIRST_ORDER" !in meta.usedDiscounts,
            ShareOfSubtotal(0.5), None),
      Offer("ABOVE_149", "15% off (max ₹40) on orders above ₹149",
            subtotal > 149.0 && "ABOVE_149" !in meta.usedDiscounts,
            ShareOfHighestCapped(0.15, 40.0), None),
      Offer("ABOVE_299", "25% off (max ₹100) on orders above ₹299",
            subtotal > 299.0 && "ABOVE_299" !in meta.usedDiscounts,
            ShareOfHighestCapped(0.25, 100.0), None),
      Offer("LOYAL_25", "25% loyalty discount (after 5 orders)",
            meta.totalOrders >= 5 && "LOYAL_25" !in meta.usedDiscounts,
            ShareOfSubtotal(0.25), Some("Complete 5 orders to unlock")),
      Offer("LOYAL_40", "40% mega loyalty (after 10 orders / ₹1000 spent)",
            (meta.totalOrders >= 10 || meta.totalSpent >= 1000.0) && "LOYAL_40" !in meta.usedDiscounts,
            ShareOfSubtotal(0.4), Some("Complete 10 orders or spend ₹1000 to unlock")) ]
  }

  /** The two spending offers unlock only strictly above their thresholds, and
      clearing the higher threshold clears the lower one. */
  lemma ThresholdOffers(subtotal: real, meta: UserMeta)
    ensures Catalogue(subtotal, meta)[1].unlocked <==> subtotal > 149.0 && "ABOVE_149" !in meta.usedDiscounts
    ensures Catalogue(subtotal, meta)[2].unlocked <==> subtotal > 299.0 && "ABOVE_299" !in meta.usedDiscounts
    ensures subtotal <= 149.0 ==> !Catalogue(subtotal, meta)[1].unlocked && !Catalogue(subtotal, meta)[2].unlocked
    ensures Catalogue(subtotal, meta)[2].unlocked && "ABOVE_149" !in meta.usedDiscounts
            ==> Catalogue(subtotal, meta)[1].unlocked
  {
  }

  /** `availableDiscounts.find(d => d.code === code)`: the first offer with that code. */
  function FindOffer(offers: seq<Offer>, code: string): (r: Option<Offer>)
    ensures r.Some? ==> r.value in offers && r.value.code == code
    ensures r.None? <==> forall i :: 0 <= i < |offers| ==> offers[i].code != code
  {
    if offers == [] then None
    else if offers[0].code == code then Some(offers[0])
    else FindOffer(offers[1..], code)
  }

  // ---------------------------------------------------------------------
  // Rounding, discount amount and total
  // ---------------------------------------------------------------------

  /** `Math.round(x * 100) / 100`: `Math.round` rounds half up, i.e. it is
      `floor(y + 0.5)`. */
  function Round2(x: real): real
  {
    ((x * 100.0 + 0.5).Floor as real) / 100.0
  }

  /** A whole number of cents. */
  predicate IsCents(x: real)
  {
    (x * 100.0).Floor as real == x * 100.0
  }

  /** Rounding moves a value by at most half a cent and lands on a whole cent. */
  lemma Round2Close(x: real)
    ensures x - 0.005 < Round2(x) <= x + 0.005
    ensures IsCents(Round2(x))
  {
    var n := (x * 100.0 + 0.5).Floor;
    assert Round2(x) * 100.0 == n as real;
  }

  /** Rounding to cents never reverses the order of two amounts. */
  lemma Round2Monotone(x: real, y: real)
    requires x <= y
    ensures Round2(x) <= Round2(y)
  {
    var a, b := x * 100.0 + 0.5, y * 100.0 + 0.5;
    assert a <= b;
    var m, n := a.Floor, b.Floor;
    assert m as real <= a && b < n as real + 1.0;
    assert m <= n;
    assert Round2(x) == m as real / 100.0 && Round2(y) == n as real / 100.0;
  }

  /** An amount already in whole cents is left unchanged by rounding. */
  lemma Round2OfCents(x: real)
    requires IsCents(x)
    ensures Round2(x) == x
  {
    var k := (x * 100.0).Floor;
    assert (x * 100.0 + 0.5).Floor == k;
  }

  /** The discount the recompute effect stores: 0 when nothing (or an unknown
      code) is selected, otherwise the offer's value rounded to cents and
      floored at 0.  The offer's `unlocked` flag is NOT consulted here. */
  function DiscountAmount(selected: Option<string>, subtotal: real, items: seq<CartLine>, meta: UserMeta): (amount: real)
    ensures amount >= 0.0
    ensures IsCents(amount)
    ensures selected.None? ==> amount == 0.0
    ensures selected.Some? && selected.value !in Codes ==> amount == 0.0
  {
    match selected
    case None => 0.0
    case Some(code) =>
      match FindOffer(Catalogue(subtotal, meta), code)
      case None => 0.0
      case Some(choice) =>
        Round2Close(Calc(choice.rule, subtotal, Highest(items)));
        MaxReal(0.0, Round2(Calc(choice.rule, subtotal, Highest(items))))
  }

  /** A selected catalogue offer, locked or not, is worth exactly its `calc`
      value rounded to cents and floored at 0, which is within half a cent
      of that value whenever it is not negative. */
  lemma DiscountTracksCalc(code: string, subtotal: real, items: seq<CartLine>, meta: UserMeta, i: nat)
    requires i < 5 && Codes[i] == code
    ensures var v := Calc(Catalogue(subtotal, meta)[i].rule, subtotal, Highest(items));
            DiscountAmount(Some(code), subtotal, items, meta) == MaxReal(0.0, Round2(v))
    ensures var v := Calc(Catalogue(subtotal, meta)[i].rule, subtotal, Highest(items));
            v >= 0.0 ==> v - 0.005 < DiscountAmount(Some(code), subtotal, items, meta) <= v + 0.005
  {
    var offers := Catalogue(subtotal, meta);
    var found := FindOffer(offers, code);
    assert found == Some(offers[i]);
    Round2Close(Calc(offers[i].rule, subtotal, Highest(items)));
  }

  /** `ABOVE_149` is never worth more than 40 and `ABOVE_299` never more than
      100, whatever the cart. */
  lemma CappedOffers(subtotal: real, items: seq<CartLine>, meta: UserMeta)
    ensures DiscountAmount(Some("ABOVE_149"), subtotal, items, meta) <= 40.0
    ensures DiscountAmount(Some("ABOVE_299"), subtotal, items, meta) <= 100.0
  {
    var offers := Catalogue(subtotal, meta);
    var h := Highest(items);
    assert FindOffer(offers, "ABOVE_149") == Some(offers[1]);
    assert FindOffer(offers, "ABOVE_299") == Some(offers[2]);
    Round2Monotone(Calc(offers[1].rule, subtotal, h), 40.0);
    Round2OfCents(40.0);
    Round2Monotone(Calc(offers[2].rule, subtotal, h), 100.0);
    Round2OfCents(100.0);
  }

  /** A value rule that takes at most half of its base: every catalogue
      rate lies between 0 and 0.5. */
  predicate ModestRule(rule: ValueRule)
  {
    0.0 <= rule.rate <= 0.5
  }

  lemma CatalogueIsModest(subtotal: real, meta: UserMeta, o: Offer)
    requires o in Catalogue(subtotal, meta)
    ensures ModestRule(o.rule)
  {
  }

  /** A modest rule is worth at most half the subtotal when the highest
      line lies between 0 and the subtotal. */
  lemma CalcAtMostHalfSubtotal(rule: ValueRule, subtotal: real, highest: real)
    requires ModestRule(rule) && 0.0 <= highest <= subtotal
    ensures Calc(rule, subtotal, highest) <= subtotal * 0.5
  {
    match rule
    case ShareOfSubtotal(rate) =>
      ShareAtMostBase(subtotal, rate);
    case ShareOfHighestCapped(rate, cap) =>
      ShareAtMostBase(highest, rate);
      assert MinReal(highest * rate, cap) <= highest * rate;
  }

  lemma ShareAtMostBase(base: real, rate: real)
    requires 0.0 <= base && 0.0 <= rate <= 0.5
    ensures base * rate <= base * 0.5
  {
    assert base * 0.5 - base * rate == base * (0.5 - rate);
    assert base * (0.5 - rate) >= 0.0;
  }

  /** Half of a non-negative amount, rounded to cents, never exceeds the
      amount itself. */
  lemma HalfRoundsBelow(s: real)
    requires s >= 0.0
    ensures Round2(s * 0.5) <= s
  {
    if s >= 0.01 {
      Round2Close(s * 0.5);
    } else {
      var y := s * 0.5 * 100.0 + 0.5;
      assert 0.0 <= y < 1.0;
      assert y.Floor == 0;
    }
  }

  /** With non-negative lines no offer is worth more than the subtotal: the
      source only floors the discount at 0, and this is why it never needs a
      ceiling. */
  lemma DiscountAtMostSubtotal(selected: Option<string>, items: seq<CartLine>, meta: UserMeta)
    requires NonNegativeLines(items)
    ensures DiscountAmount(selected, Subtotal(items), items, meta) <= Subtotal(items)
  {
    var subtotal := Subtotal(items);
    var highest := Highest(items);
    SubtotalNonNegative(items);
    HighestAtMostSubtotal(items);
    HighestIsMaximum(items);
    assert 0.0 <= highest by {
      if items != [] {
        assert LineAmount(items[0]) >= 0.0;
      }
    }
    if selected.Some? {
      var found := FindOffer(Catalogue(subtotal, meta), selected.value);
      if found.Some? {
        CatalogueIsModest(subtotal, meta, found.value);
        var v := Calc(found.value.rule, subtotal, highest);
        CalcAtMostHalfSubtotal(found.value.rule, subtotal, highest);
        Round2Monotone(v, subtotal * 0.5);
        HalfRoundsBelow(subtotal);
      }
    }
  }

  /** `Math.max(0, subtotal - discountAmount + deliveryFee)`. */
  function Total(subtotal: real, discount: real): (total: real)
    ensures total >= 0.0
    ensures total >= subtotal - discount + DeliveryFee
    ensures total == 0.0 || total == subtotal - discount + DeliveryFee
  {
    MaxReal(0.0, subtotal - discount + DeliveryFee)
  }

  // ---------------------------------------------------------------------
  // Ranking: unlocked offers first, catalogue order kept within each group
  // ---------------------------------------------------------------------

  function Unlocked(o: Offer): bool { o.unlocked }

  function Locked(o: Offer): bool { !o.unlocked }

  /** `[...availableDiscounts].sort(...)` with a comparator that only puts
      unlocked before locked.  `Array.prototype.sort` is stable, so the result
      is the unlocked offers in catalogue order followed by the locked ones. */
  function SortedOffers(offers: seq<Offer>): seq<Offer>
  {
    Filter(offers, Unlocked) + Filter(offers, Locked)
  }

  /** No locked offer precedes an unlocked one. */
  predicate UnlockedFirst(r: seq<Offer>)
  {
    forall i, j :: 0 <= i < j < |r| && !r[i].unlocked ==> !r[j].unlocked
  }

  /** The ranking is a permutation of the catalogue. */
  lemma SortedIsPermutation(offers: seq<Offer>)
    ensures multiset(SortedOffers(offers)) == multiset(offers)
  {
    forall x: Offer
      ensures multiset(SortedOffers(offers))[x] == multiset(offers)[x]
    {
      FilterCount(offers, Unlocked, x);
      FilterCount(offers, Locked, x);
    }
  }

  /** A list with the unlocked offers first is its unlocked part followed by
      its locked part. */
  lemma {:induction false} UnlockedFirstSplits(r: seq<Offer>)
    requires UnlockedFirst(r)
    ensures r == Filter(r, Unlocked) + Filter(r, Locked)
  {
    if r != [] {
      assert UnlockedFirst(r[1..]);
      UnlockedFirstSplits(r[1..]);
      if !r[0].unlocked {
        FilterDropsAll(r[1..], Unlocked);
        FilterKeepsAll(r[1..], Locked);
        assert r == [r[0]] + r[1..];
      }
    }
  }

  /** Unlocked offers followed by locked ones put the unlocked first. */
  lemma ConcatUnlockedFirst(u: seq<Offer>, l: seq<Offer>)
    requires forall k :: 0 <= k < |u| ==> Unlocked(u[k])
    requires forall k :: 0 <= k < |l| ==> Locked(l[k])
    ensures UnlockedFirst(u + l)
  {
    var r := u + l;
    assert forall k :: 0 <= k < |u| ==> r[k] == u[k];
    assert forall k :: |u| <= k < |r| ==> r[k] == l[k - |u|];
  }

  /** The ranking puts unlocked offers first and keeps each group in
      catalogue order. */
  lemma SortedOffersIsStable(offers: seq<Offer>)
    ensures UnlockedFirst(SortedOffers(offers))
    ensures Filter(SortedOffers(offers), Unlocked) == Filter(offers, Unlocked)
    ensures Filter(SortedOffers(offers), Locked) == Filter(offers, Locked)
  {
    var u: seq<Offer>, l: seq<Offer> := Filter(offers, Unlocked), Filter(offers, Locked);
    FilterAll(offers, Unlocked);
    FilterAll(offers, Locked);
    ConcatUnlockedFirst(u, l);
    FilterAppend(u, l, Unlocked);
    FilterAppend(u, l, Locked);
    FilterKeepsAll(u, Unlocked);
    FilterDropsAll(l, Unlocked);
    FilterDropsAll(u, Locked);
    FilterKeepsAll(l, Locked);
    assert u + [] == u && [] + l == l;
  }

  /** `SortedOffers` is exactly the stable sort by the comparator: it is the
      only list that puts unlocked offers first and keeps each group in
      catalogue order. */
  lemma SortedOffersIsStableSort(offers: seq<Offer>, r: seq<Offer>)
    ensures r == SortedOffers(offers) <==>
            UnlockedFirst(r) &&
            Filter(r, Unlocked) == Filter(offers, Unlocked) &&
            Filter(r, Locked) == Filter(offers, Locked)
  {
    SortedOffersIsStable(offers);
    if UnlockedFirst(r) && Filter(r, Unlocked) == Filter(offers, Unlocked) && Filter(r, Locked) == Filter(offers, Locked) {
      UnlockedFirstSplits(r);
    }
  }

  // ---------------------------------------------------------------------
  // The selection toggle
  // ---------------------------------------------------------------------

  /** `selectedDiscount === code ? null : code`. */
  function Toggle(current: Option<string>, code: string): (next: Option<string>)
    ensures next == None <==> current == Some(code)
    ensures next != None ==> next == Some(code)
  {
    if current == Some(code) then None else Some(code)
  }

  /** Selecting the same unselected code twice in a row leaves nothing selected
      and no discount applied. */
  lemma ToggleTwiceClears(current: Option<string>, code: string, subtotal: real, items: seq<CartLine>, meta: UserMeta)
    requires current != Some(code)
    ensures Toggle(Toggle(current, code), code) == None
    ensures DiscountAmount(Toggle(Toggle(current, code), code), subtotal, items, meta) == 0.0
  {
  }

  // ---------------------------------------------------------------------
  // Concrete cases
  // ---------------------------------------------------------------------

  /** A selected offer keeps applying after the subtotal drops below its
      threshold: at subtotal 100 `ABOVE_149` is locked, yet it is still worth
      15 because the recompute does not re-check `unlocked`. */
  lemma StaleSelectionStillApplies()
    ensures var items := [CartLine("a", "Thali", 100.0, 1, None, None)];
            !Catalogue(Subtotal(items), InitialMeta)[1].unlocked &&
            DiscountAmount(Some("ABOVE_149"), Subtotal(items), items, InitialMeta) == 15.0
  {
    var items := [CartLine("a", "Thali", 100.0, 1, None, None)];
    assert Subtotal(items) == 100.0 by {
      assert items[..0] == [];
    }
    var offers := Catalogue(100.0, InitialMeta);
    assert FindOffer(offers, "ABOVE_149") == Some(offers[1]);
    assert Highest(items) == 100.0;
    assert (15.0 * 100.0 + 0.5).Floor == 1500;
  }

  /** Subtotal 200 on one line unlocks `ABOVE_149`, which gives 30.00 off
      and a total of 185.00. */
  lemma Above149Example()
    ensures var items := [CartLine("b", "Biryani", 200.0, 1, None, None)];
            Catalogue(Subtotal(items), InitialMeta)[1].unlocked &&
            DiscountAmount(Some("ABOVE_149"), Subtotal(items), items, InitialMeta) == 30.0 &&
            Total(Subtotal(items), 30.0) == 185.0
  {
    var items := [CartLine("b", "Biryani", 200.0, 1, None, None)];
    assert Subtotal(items) == 200.0 by {
      assert items[..0] == [];
    }
    var offers := Catalogue(200.0, InitialMeta);
    assert FindOffer(offers, "ABOVE_149") == Some(offers[1]);
    assert (30.0 * 100.0 + 0.5).Floor == 3000;
  }

  /** Subtotal 1000 with `LOYAL_40` unlocked by spend gives 400.00 off and a
      total of 615.00. */
  lemma Loyal40Example()
    ensures var meta := UserMeta(0, 1000.0, [], false);
            var items := [CartLine("c", "Feast", 500.0, 2, None, None)];
            Catalogue(Subtotal(items), meta)[4].unlocked &&
            DiscountAmount(Some("LOYAL_40"), Subtotal(items), items, meta) == 400.0 &&
            Total(Subtotal(items), 400.0) == 615.0
  {
    var meta := UserMeta(0, 1000.0, [], false);
    var items := [CartLine("c", "Feast", 500.0, 2, None, None)];
    assert Subtotal(items) == 1000.0 by {
      assert items[..0] == [];
    }
    var offers := Catalogue(1000.0, meta);
    assert FindOffer(offers, "LOYAL_40") == Some(offers[4]);
    assert (400.0 * 100.0 + 0.5).Floor == 40000;
  }
}
