/**
 * Step 4 of `analyzeSalesData`: the accumulators in key order, sorted by
 * profit, each given its bonus and its ten best-selling products, then
 * turned into report rows.
 */
module Ranking {
  import opened SalesTypes
  import opened StableSort

  /** The sort key of the seller ranking. */
  function ProfitOf(acc: SellerAcc): real
  {
    acc.profit
  }

  /** The sort key of the top-products list. */
  function QuantityKey(p: ProductCount): real
  {
    p.quantity as real
  }

  /** `Object.values(sellerStats)`: the accumulators in key-insertion order. */
  function ValuesInOrder(stats: map<string, SellerAcc>, order: seq<string>): (values: seq<SellerAcc>)
    requires forall k :: 0 <= k < |order| ==> order[k] in stats
    ensures |values| == |order|
    ensures forall k :: 0 <= k < |order| ==> values[k] == stats[order[k]]
  {
    seq(|order|, k requires 0 <= k < |order| => stats[order[k]])
  }

  /**
   * `Object.entries(products_sold)` as `{sku, quantity}` pairs, sorted by
   * quantity descending and cut to the first ten.
   */
  function TopProducts(sold: seq<ProductCount>): (top: seq<ProductCount>)
    ensures |top| == if |sold| <= 10 then |sold| else 10
    ensures SortedDesc(top, QuantityKey)
    ensures multiset(top) <= multiset(sold)
  {
    var sorted := SortDesc(sold, QuantityKey);
    var top := Take(sorted, 10);
    assert sorted == top + sorted[|top|..];
    assert multiset(sorted) == multiset(top) + multiset(sorted[|top|..]);
    top
  }

  /** A product left out of the top list sold no more than any product in it. */
  lemma TopProductsAreBest(sold: seq<ProductCount>, e: ProductCount)
    requires e in sold
    ensures var top := TopProducts(sold);
      e in top || forall j :: 0 <= j < |top| ==> top[j].quantity >= e.quantity
  {
    var sorted := SortDesc(sold, QuantityKey);
    var top := Take(sorted, 10);
    assert e in multiset(sorted);
    var k :| 0 <= k < |sorted| && sorted[k] == e;
    if k < |top| {
      assert top[k] == e;
    } else {
      assert forall j :: 0 <= j < |top| ==> top[j] == sorted[j];
    }
  }

  /** Among products sold in equal quantity, the top list keeps those first sold, in that order. */
  lemma TopProductsKeepFirstSold(sold: seq<ProductCount>, q: int)
    ensures var (inTop, all) := (WithKey(TopProducts(sold), QuantityKey, q as real), WithKey(sold, QuantityKey, q as real));
      |inTop| <= |all| && inTop == all[..|inTop|]
  {
    var sorted := SortDesc(sold, QuantityKey);
    var n := |TopProducts(sold)|;
    assert TopProducts(sold) == sorted[..n];
    WithKeyOfPrefix(sorted, n, QuantityKey, q as real);
    SortIsStable(sold, QuantityKey, q as real);
  }

  /** The row emitted for a ranked seller. */
  function ToRow(r: RankedSeller): (row: ReportRow)
    ensures (row.sellerId, row.name, row.salesCount) == (r.acc.sellerId, r.acc.name, r.acc.salesCount)
    ensures (row.revenue, row.profit) == (r.acc.revenue, r.acc.profit)
    ensures (row.topProducts, row.bonus) == (r.topProducts, r.bonus)
  {
    ReportRow(r.acc.sellerId, r.acc.name, r.acc.revenue, r.acc.profit, r.acc.salesCount, r.topProducts, r.bonus)
  }

  /**
   * The `forEach` over the sorted sellers: the seller at `index` gets
   * `calculateBonus(index, total, seller)` and its top products.
   */
  method RankSellers(sorted: seq<SellerAcc>, calculateBonus: BonusPolicy) returns (ranked: seq<RankedSeller>)
    ensures |ranked| == |sorted|
    ensures forall i :: 0 <= i < |sorted| ==>
      ranked[i] == RankedSeller(sorted[i], calculateBonus(i, |sorted|, sorted[i]), TopProducts(sorted[i].productsSold))
  {
    ranked := [];
    for index := 0 to |sorted|
      invariant |ranked| == index
      invariant forall i :: 0 <= i < index ==>
        ranked[i] == RankedSeller(sorted[i], calculateBonus(i, |sorted|, sorted[i]), TopProducts(sorted[i].productsSold))
    {
      var seller := sorted[index];
      var bonus := calculateBonus(index, |sorted|, seller);
      var topProducts := TopProducts(seller.productsSold);
      ranked := ranked + [RankedSeller(seller, bonus, topProducts)];
    }
  }
}
