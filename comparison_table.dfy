/** The side-by-side comparison table and its best-value highlighting. */
module Comparison {
  import opened Wrappers
  import opened Listing

  /** `Math.min(...xs)` of a non-empty list. */
  function MinOf(xs: seq<int>): (m: int)
    requires xs != []
    ensures m in xs
    ensures forall k :: 0 <= k < |xs| ==> m <= xs[k]
  {
    if |xs| == 1 then xs[0]
    else var rest := MinOf(xs[1..]); if xs[0] <= rest then xs[0] else rest
  }

  /** `Math.max(...xs)` of a non-empty list. */
  function MaxOf(xs: seq<int>): (m: int)
    requires xs != []
    ensures m in xs
    ensures forall k :: 0 <= k < |xs| ==> xs[k] <= m
  {
    if |xs| == 1 then xs[0]
    else var rest := MaxOf(xs[1..]); if xs[0] >= rest then xs[0] else rest
  }

  /** `properties.map(p => p.price)`. */
  function Prices(props: seq<Property>): (r: seq<int>)
    ensures |r| == |props| && forall k :: 0 <= k < |props| ==> r[k] == props[k].price
  {
    seq(|props|, k requires 0 <= k < |props| => props[k].price)
  }

  /** `p.size || 0`: a missing size counts as 0. */
  function SizeOrZero(p: Property): int {
    if p.size.Some? then p.size.value else 0
  }

  /** `properties.map(p => p.size || 0)`. */
  function Sizes(props: seq<Property>): (r: seq<int>)
    ensures |r| == |props| && forall k :: 0 <= k < |props| ==> r[k] == SizeOrZero(props[k])
  {
    seq(|props|, k requires 0 <= k < |props| => SizeOrZero(props[k]))
  }

  const BestClass := "text-green-500 font-semibold"

  /** `getHighlightClass`: nothing with a single property, else the best-value class when the value is the minimum (or, when higher is better, the maximum). */
  function HighlightClass(count: nat, value: int, min: int, max: int, higherIsBetter: bool): (c: string)
    ensures c == "" || c == BestClass
    ensures c == BestClass <==> count != 1 && value == (if higherIsBetter then max else min)
  {
    if count == 1 then ""
    else if higherIsBetter then (if value == max then BestClass else "")
    else if value == min then BestClass else ""
  }

  /** The amenity badges of one column. */
  datatype Badges = Badges(shown: seq<string>, more: nat, noneListed: bool)

  /** Up to three badges, a `+(k-3)` badge beyond three, or "None listed" for a missing or empty list. */
  function AmenityBadges(amenities: Option<seq<string>>): (b: Badges)
    ensures b.noneListed <==> amenities.None? || amenities.value == []
    ensures b.noneListed ==> b.shown == [] && b.more == 0
    ensures amenities.Some? ==>
      var a := amenities.value;
      && |b.shown| == (if |a| < 3 then |a| else 3)
      && b.shown == a[..|b.shown|]
      && b.more == (if |a| > 3 then |a| - 3 else 0)
      && |b.shown| + b.more == |a|
  {
    if amenities.None? || amenities.value == [] then Badges([], 0, true)
    else
      var a := amenities.value;
      Badges(if |a| <= 3 then a else a[..3], if |a| > 3 then |a| - 3 else 0, false)
  }

  /** One property's column: the price and size highlights, the two trend icons and the badges. */
  datatype Column = Column(priceClass: string, cheapestIcon: bool, sizeClass: string, largestIcon: bool, badges: Badges)

  function ColumnOf(props: seq<Property>, k: nat, minPrice: int, maxPrice: int, maxSize: int): Column
    requires k < |props|
  {
    var p := props[k];
    Column(
      HighlightClass(|props|, p.price, minPrice, maxPrice, false),
      p.price == minPrice && |props| > 1,
      HighlightClass(|props|, SizeOrZero(p), 0, maxSize, true),
      p.size.Some? && p.size.value == maxSize && |props| > 1 && p.size.value > 0,
      AmenityBadges(p.amenities))
  }

  /** No price in the list is lower than the k-th. */
  ghost predicate Cheapest(props: seq<Property>, k: int)
    requires 0 <= k < |props|
  {
    forall j :: 0 <= j < |props| ==> props[k].price <= props[j].price
  }

  /** No size in the list (missing counted as 0) is larger than the k-th. */
  ghost predicate Largest(props: seq<Property>, k: int)
    requires 0 <= k < |props|
  {
    forall j :: 0 <= j < |props| ==> SizeOrZero(props[j]) <= SizeOrZero(props[k])
  }

  /** The table: nothing for an empty list, otherwise one column per property. */
  function ComparisonView(props: seq<Property>): (r: Option<seq<Column>>)
    ensures r.None? <==> props == []
    ensures r.Some? ==> |r.value| == |props|
    ensures r.Some? ==> forall k :: 0 <= k < |props| ==> r.value[k].badges == AmenityBadges(props[k].amenities)
  {
    if props == [] then None
    else
      var prices := Prices(props);
      var minPrice, maxPrice, maxSize := MinOf(prices), MaxOf(prices), MaxOf(Sizes(props));
      Some(seq(|props|, k requires 0 <= k < |props| => ColumnOf(props, k, minPrice, maxPrice, maxSize)))
  }

  /** The minimum of the prices is the k-th price exactly when the k-th is cheapest. */
  lemma MinPriceIsCheapest(props: seq<Property>, k: int)
    requires 0 <= k < |props|
    ensures props[k].price == MinOf(Prices(props)) <==> Cheapest(props, k)
  {
    var prices := Prices(props);
    var i :| 0 <= i < |prices| && prices[i] == MinOf(prices);
    if Cheapest(props, k) {
      assert props[k].price <= props[i].price;
    }
  }

  /** The maximum of the sizes is the k-th size exactly when the k-th is largest. */
  lemma MaxSizeIsLargest(props: seq<Property>, k: int)
    requires 0 <= k < |props|
    ensures SizeOrZero(props[k]) == MaxOf(Sizes(props)) <==> Largest(props, k)
  {
    var sizes := Sizes(props);
    var i :| 0 <= i < |sizes| && sizes[i] == MaxOf(sizes);
    if Largest(props, k) {
      assert SizeOrZero(props[i]) <= SizeOrZero(props[k]);
    }
  }

  /**
   * The highlighting of column `k`: its price is highlighted (and marked
   * cheapest) exactly when it is among the lowest, its size exactly when
   * it is among the largest, and the largest-size icon also needs a size
   * that is present and positive; a single property has no highlights.
   */
  lemma ColumnRules(props: seq<Property>, k: int)
    requires 0 <= k < |props|
    ensures var c := ComparisonView(props).value[k];
      && (c.priceClass == BestClass <==> |props| > 1 && Cheapest(props, k))
      && (c.cheapestIcon <==> c.priceClass == BestClass)
      && (c.sizeClass == BestClass <==> |props| > 1 && Largest(props, k))
      && (c.largestIcon <==> c.sizeClass == BestClass && props[k].size.Some? && props[k].size.value > 0)
  {
    MinPriceIsCheapest(props, k);
    MaxSizeIsLargest(props, k);
  }

  /** With two or more properties some price is highlighted, and tied lowest prices are all highlighted. */
  lemma SomeCheapestHighlighted(props: seq<Property>)
    requires |props| > 1
    ensures exists k :: 0 <= k < |props| && ComparisonView(props).value[k].priceClass == BestClass
    ensures forall i, j :: 0 <= i < |props| && 0 <= j < |props| && props[i].price == props[j].price ==>
      ComparisonView(props).value[i].priceClass == ComparisonView(props).value[j].priceClass
  {
    var prices := Prices(props);
    var k :| 0 <= k < |prices| && prices[k] == MinOf(prices);
    PriceClassOf(props, k);
    forall i, j | 0 <= i < |props| && 0 <= j < |props| && props[i].price == props[j].price
      ensures ComparisonView(props).value[i].priceClass == ComparisonView(props).value[j].priceClass
    {
      PriceClassOf(props, i);
      PriceClassOf(props, j);
    }
  }

  /** The price class of column `k` depends only on its own price and the list's extremes. */
  lemma PriceClassOf(props: seq<Property>, k: int)
    requires 0 <= k < |props|
    ensures ComparisonView(props).value[k].priceClass ==
      HighlightClass(|props|, props[k].price, MinOf(Prices(props)), MaxOf(Prices(props)), false)
  {
  }

  /** A single property is shown without any highlight or trend icon. */
  lemma SinglePropertyPlain(p: Property)
    ensures var c := ComparisonView([p]).value[0];
      c.priceClass == "" && !c.cheapestIcon && c.sizeClass == "" && !c.largestIcon
  {
  }

  /** When no property has a size, every size cell counts as the largest and is highlighted, though none gets the icon. */
  lemma NoSizesAllHighlighted(props: seq<Property>)
    requires |props| > 1 && forall k :: 0 <= k < |props| ==> props[k].size.None?
    ensures forall k :: 0 <= k < |props| ==>
      ComparisonView(props).value[k].sizeClass == BestClass && !ComparisonView(props).value[k].largestIcon
  {
    forall k | 0 <= k < |props|
      ensures ComparisonView(props).value[k].sizeClass == BestClass && !ComparisonView(props).value[k].largestIcon
    {
      ColumnRules(props, k);
    }
  }
}
