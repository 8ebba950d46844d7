/**
 * The two policy functions of the report: the discounted revenue of a
 * purchase and the rank-tier bonus.
 */
module Policies {
  import opened SalesTypes

  /** Revenue of one purchase line: sale price times quantity, less the percentage discount. */
  function DiscountedRevenue(item: Item): real
  {
    item.salePrice * (item.quantity as real) * (1.0 - item.discount / 100.0)
  }

  /** The undiscounted price of one purchase line. */
  function FullPrice(item: Item): real
  {
    item.salePrice * (item.quantity as real)
  }

  /** Sum of the discounted revenue of `items`, accumulated front to back. */
  function ItemsRevenue(items: seq<Item>): real
    decreases |items|
  {
    if items == [] then 0.0
    else ItemsRevenue(items[..|items| - 1]) + DiscountedRevenue(items[|items| - 1])
  }

  /** Sum of the undiscounted prices of `items`. */
  function ItemsFullPrice(items: seq<Item>): real
    decreases |items|
  {
    if items == [] then 0.0
    else ItemsFullPrice(items[..|items| - 1]) + FullPrice(items[|items| - 1])
  }

  /** A purchase line with a non-negative price and quantity and a discount in [0, 100]. */
  predicate WellPriced(item: Item)
  {
    item.salePrice >= 0.0 && item.quantity >= 0 && 0.0 <= item.discount <= 100.0
  }

  /**
   * `calculateSimpleRevenue(purchase, _product)`: walks the items of the
   * purchase and adds up their discounted revenue; the product is unused.
   */
  method CalculateSimpleRevenue(purchase: PurchaseRecord, product: Product) returns (revenue: real)
    ensures revenue == ItemsRevenue(purchase.items)
  {
    revenue := 0.0;
    for i := 0 to |purchase.items|
      invariant revenue == ItemsRevenue(purchase.items[..i])
    {
      var item := purchase.items[i];
      var fullPrice := item.salePrice * (item.quantity as real);
      var discountDecimal := item.discount / 100.0;
      var discountedPrice := fullPrice * (1.0 - discountDecimal);
      revenue := revenue + discountedPrice;
      assert purchase.items[..i + 1][..i] == purchase.items[..i];
    }
    assert purchase.items[..|purchase.items|] == purchase.items;
  }

  /** The revenue of a split list of items is the sum of the revenues of its parts. */
  lemma {:induction false} ItemsRevenueAppend(a: seq<Item>, b: seq<Item>)
    ensures ItemsRevenue(a + b) == ItemsRevenue(a) + ItemsRevenue(b)
    decreases |b|
  {
    if b == [] {
      assert a + b == a;
    } else {
      var b' := b[..|b| - 1];
      assert (a + b)[..|a + b| - 1] == a + b';
      ItemsRevenueAppend(a, b');
    }
  }

  /** A well-priced line earns between nothing and its full price. */
  lemma DiscountedRevenueBounds(item: Item)
    requires WellPriced(item)
    ensures 0.0 <= DiscountedRevenue(item) <= FullPrice(item)
  {
    var full := FullPrice(item);
    var keep := 1.0 - item.discount / 100.0;
    assert 0.0 <= keep <= 1.0;
    assert full >= 0.0 by {
      assert item.salePrice >= 0.0 && item.quantity as real >= 0.0;
    }
    assert DiscountedRevenue(item) == full * keep;
    assert full - full * keep == full * (1.0 - keep);
  }

  /**
   * With non-negative prices and quantities and discounts in [0, 100], the
   * revenue of a purchase is non-negative and at most its undiscounted price.
   */
  lemma {:induction false} ItemsRevenueBounds(items: seq<Item>)
    requires forall k :: 0 <= k < |items| ==> WellPriced(items[k])
    ensures 0.0 <= ItemsRevenue(items) <= ItemsFullPrice(items)
    decreases |items|
  {
    if items != [] {
      ItemsRevenueBounds(items[..|items| - 1]);
      DiscountedRevenueBounds(items[|items| - 1]);
    }
  }

  /**
   * `calculateBonusByProfit(index, total, seller)`: the bonus percentage of
   * the seller ranked `index` among `total`. The last place is checked
   * before the first, so a lone seller gets 0.
   */
  function CalculateBonusByProfit(index: int, total: int, seller: SellerAcc): (bonus: real)
    ensures bonus in {0.0, 5.0, 10.0, 15.0}
  {
    if index == total - 1 then 0.0
    else if index == 0 then 15.0
    else if index == 1 || index == 2 then 10.0
    else 5.0
  }

  /**
   * Within a ranking of `total` sellers, the last place gets 0, the first
   * gets 15 when it is not also last, and a better rank never earns less.
   */
  lemma BonusFollowsRank(total: int, s: SellerAcc, t: SellerAcc)
    requires total >= 1
    ensures CalculateBonusByProfit(total - 1, total, s) == 0.0
    ensures total >= 2 ==> CalculateBonusByProfit(0, total, s) == 15.0
    ensures forall i, j :: 0 <= i < j < total ==>
      CalculateBonusByProfit(i, total, s) >= CalculateBonusByProfit(j, total, t)
  {
  }

  /** A lone seller is both first and last, and the last-place rule wins. */
  lemma LoneSellerGetsNoBonus(s: SellerAcc)
    ensures CalculateBonusByProfit(0, 1, s) == 0.0
  {
  }

  /** Five ranked sellers receive 15, 10, 10, 5 and 0. */
  lemma FiveSellerBonuses(s: SellerAcc)
    ensures seq(5, i => CalculateBonusByProfit(i, 5, s)) == [15.0, 10.0, 10.0, 5.0, 0.0]
  {
  }
}
