/**
 * What the report promises about its rows: one row per seller id, ordered
 * by profit, each carrying its own seller's totals, at most ten top
 * products, sales counts that add up to the known records, and bonus
 * tiers that follow the rank.
 */
module ReportProperties {
  import opened Wrappers
  import opened SalesTypes
  import opened Policies
  import opened StableSort
  import opened KeyOrder
  import opened Aggregation
  import opened Ranking
  import opened SalesReport

  function RowId(row: ReportRow): string { row.sellerId }
  function RowSales(row: ReportRow): int { row.salesCount }
  function AccId(acc: SellerAcc): string { acc.sellerId }
  function AccSales(acc: SellerAcc): int { acc.salesCount }

  // ---------------------------------------------------------------- facts about the ranking

  /** The accumulators of the pass are filed under their own ids and under every seller id. */
  lemma FinalStatsShape(sellers: seq<Seller>, products: seq<Product>, records: seq<PurchaseRecord>)
    ensures var (stats, order) := (FinalStats(sellers, products, records), SellerOrder(sellers));
      && (forall id :: id in stats ==> stats[id].sellerId == id)
      && (forall k :: 0 <= k < |order| ==> order[k] in stats)
      && (forall id :: id in stats <==> IsSellerId(sellers, id))
  {
  }

  /** Sorting the values of a map keyed by id permutes their ids and keeps each value. */
  lemma SortedValues(stats: map<string, SellerAcc>, order: seq<string>)
    requires forall k :: 0 <= k < |order| ==> order[k] in stats
    requires forall id :: id in stats ==> stats[id].sellerId == id
    ensures var sorted := SortDesc(ValuesInOrder(stats, order), ProfitOf);
      && SortedDesc(sorted, ProfitOf)
      && multiset(MapSeq(sorted, AccId)) == multiset(order)
      && forall i :: 0 <= i < |sorted| ==> sorted[i].sellerId in stats && stats[sorted[i].sellerId] == sorted[i]
  {
    var values := ValuesInOrder(stats, order);
    var sorted := SortDesc(values, ProfitOf);
    assert MapSeq(values, AccId) == order;
    MapSeqSort(values, ProfitOf, AccId);
    forall i | 0 <= i < |sorted| ensures sorted[i].sellerId in stats && stats[sorted[i].sellerId] == sorted[i] {
      assert sorted[i] in multiset(values);
      var k :| 0 <= k < |values| && values[k] == sorted[i];
    }
  }

  /** The ranking: profit-descending, a permutation of the seller ids, each entry its seller's accumulator. */
  lemma RankedFacts(sellers: seq<Seller>, products: seq<Product>, records: seq<PurchaseRecord>)
    ensures var (stats, sorted) := (FinalStats(sellers, products, records), Ranked(sellers, products, records));
      && SortedDesc(sorted, ProfitOf)
      && multiset(MapSeq(sorted, AccId)) == multiset(SellerOrder(sellers))
      && forall i :: 0 <= i < |sorted| ==>
           && sorted[i].sellerId in stats && stats[sorted[i].sellerId] == sorted[i]
           && IsSellerId(sellers, sorted[i].sellerId)
  {
    FinalStatsShape(sellers, products, records);
    SortedValues(FinalStats(sellers, products, records), SellerOrder(sellers));
  }

  // ---------------------------------------------------------------- the report's promises

  /**
   * One row per seller id: the row ids are the distinct seller ids, each
   * exactly once, and an id has a row exactly when some seller has it.
   */
  lemma ReportHasOneRowPerSeller(sellers: seq<Seller>, products: seq<Product>, records: seq<PurchaseRecord>,
                                 calculateBonus: BonusPolicy)
    ensures var ids := MapSeq(Report(sellers, products, records, calculateBonus), RowId);
      && |ids| == |SellerOrder(sellers)|
      && multiset(ids) == multiset(SellerOrder(sellers))
      && Distinct(ids)
      && forall id :: id in ids <==> IsSellerId(sellers, id)
  {
    var sorted := Ranked(sellers, products, records);
    var order := SellerOrder(sellers);
    var ids := MapSeq(Report(sellers, products, records, calculateBonus), RowId);
    RankedFacts(sellers, products, records);
    assert ids == MapSeq(sorted, AccId);
    DistinctPermutation(order, ids);
    forall id ensures id in ids <==> IsSellerId(sellers, id) {
      assert id in ids <==> id in multiset(ids);
      assert id in order <==> id in multiset(order);
    }
  }

  /**
   * Sellers with equal profit keep the key order of `sellerStats`: of two
   * tied rows, the upper one belongs to the seller listed first in `sellers`.
   */
  lemma ReportTiesFollowSellerOrder(sellers: seq<Seller>, products: seq<Product>, records: seq<PurchaseRecord>,
                                    calculateBonus: BonusPolicy)
    ensures var rows := Report(sellers, products, records, calculateBonus);
      forall i, j :: 0 <= i < j < |rows| && rows[i].profit == rows[j].profit ==>
        FirstIndex(Ids(sellers), rows[i].sellerId) < FirstIndex(Ids(sellers), rows[j].sellerId)
  {
    var stats := FinalStats(sellers, products, records);
    var order := SellerOrder(sellers);
    FinalStatsShape(sellers, products, records);
    var values := ValuesInOrder(stats, order);
    var f := (acc: SellerAcc) => FirstIndex(Ids(sellers), acc.sellerId);
    SellerOrderFirstAppearance(sellers);
    forall a, b | 0 <= a < b < |values| ensures f(values[a]) < f(values[b]) {
      assert values[a].sellerId == order[a] && values[b].sellerId == order[b];
    }
    SortTiesIncrease(values, ProfitOf, f);
    var sorted := Ranked(sellers, products, records);
    assert sorted == SortDesc(values, ProfitOf);
    var rows := Report(sellers, products, records, calculateBonus);
    forall i, j | 0 <= i < j < |rows| && rows[i].profit == rows[j].profit
      ensures FirstIndex(Ids(sellers), rows[i].sellerId) < FirstIndex(Ids(sellers), rows[j].sellerId)
    {
      assert ProfitOf(sorted[i]) == ProfitOf(sorted[j]);
    }
  }

  /** Every seller's starting accumulator has an empty, so duplicate-free, sku list. */
  lemma InitialSkusDistinct(sellers: seq<Seller>)
    ensures SkusDistinct(InitialStats(sellers))
  {
    var stats0 := InitialStats(sellers);
    forall id | id in stats0 ensures Distinct(Skus(stats0[id].productsSold)) {
      assert stats0[id].productsSold == [];
    }
  }

  /** A seller's final accumulator holds the totals of its own records. */
  lemma FinalStatsTotals(sellers: seq<Seller>, products: seq<Product>, records: seq<PurchaseRecord>, id: string)
    requires IsSellerId(sellers, id)
    ensures var (acc, index) := (FinalStats(sellers, products, records)[id], ProductIndex(products));
      && acc.salesCount == CountFor(records, id)
      && acc.revenue == AmountFor(records, id)
      && acc.profit == ProfitFor(records, id, index)
      && Distinct(Skus(acc.productsSold))
      && forall sku :: QuantityOf(acc.productsSold, sku) == SoldFor(records, id, sku, index)
  {
    var stats0 := InitialStats(sellers);
    InitialSkusDistinct(sellers);
    AggregateTotals(stats0, records, ProductIndex(products), id);
  }

  /**
   * A seller's `products_sold` lists the skus it sold from the catalog, each
   * once, in the order of their first sale.
   */
  lemma SoldInFirstSaleOrder(sellers: seq<Seller>, products: seq<Product>, records: seq<PurchaseRecord>, id: string)
    requires IsSellerId(sellers, id)
    ensures var (sold, skus) := (SkusFor(records, id, ProductIndex(products)),
                                 Skus(FinalStats(sellers, products, records)[id].productsSold));
      && (forall sku :: sku in skus <==> sku in sold)
      && Distinct(skus)
      && forall i, j :: 0 <= i < j < |skus| ==> FirstIndex(sold, skus[i]) < FirstIndex(sold, skus[j])
  {
    var stats0 := InitialStats(sellers);
    var index := ProductIndex(products);
    InitialSkusDistinct(sellers);
    AggregateTotals(stats0, records, index, id);
    assert Skus(stats0[id].productsSold) == [];
    AppendNewFirstSeen(SkusFor(records, id, index));
  }

  /**
   * Each row carries the totals of its seller's own records: the number of
   * records, the sum of their amounts and the profit of their known items;
   * each top product is a `{sku, quantity}` entry of that seller's
   * `products_sold`, with all of that sku the seller sold.
   */
  lemma ReportRowTotals(sellers: seq<Seller>, products: seq<Product>, records: seq<PurchaseRecord>,
                        calculateBonus: BonusPolicy, i: nat)
    requires i < |Report(sellers, products, records, calculateBonus)|
    ensures var (row, index) := (Report(sellers, products, records, calculateBonus)[i], ProductIndex(products));
      && IsSellerId(sellers, row.sellerId)
      && row.salesCount == CountFor(records, row.sellerId)
      && row.revenue == AmountFor(records, row.sellerId)
      && row.profit == ProfitFor(records, row.sellerId, index)
      && multiset(row.topProducts) <= multiset(FinalStats(sellers, products, records)[row.sellerId].productsSold)
      && forall e :: e in row.topProducts ==> e.quantity == SoldFor(records, row.sellerId, e.sku, index)
  {
    var sorted := Ranked(sellers, products, records);
    var stats := FinalStats(sellers, products, records);
    var index := ProductIndex(products);
    RankedFacts(sellers, products, records);
    var row := Report(sellers, products, records, calculateBonus)[i];
    var id := row.sellerId;
    assert stats[id] == sorted[i];
    FinalStatsTotals(sellers, products, records, id);
    var sold := stats[id].productsSold;
    forall e | e in row.topProducts ensures e.quantity == SoldFor(records, id, e.sku, index) {
      assert e in multiset(row.topProducts);
      assert e in multiset(sold);
      QuantityOfEntry(sold, e);
    }
  }

  /** A seller that no record names gets a row of zeroes with no top products. */
  lemma ReportQuietSeller(sellers: seq<Seller>, products: seq<Product>, records: seq<PurchaseRecord>,
                          calculateBonus: BonusPolicy, i: nat)
    requires i < |Report(sellers, products, records, calculateBonus)|
    requires forall k :: 0 <= k < |records| ==>
      records[k].sellerId != Report(sellers, products, records, calculateBonus)[i].sellerId
    ensures var row := Report(sellers, products, records, calculateBonus)[i];
      row.salesCount == 0 && row.revenue == 0.0 && row.profit == 0.0 && row.topProducts == []
  {
    var sorted := Ranked(sellers, products, records);
    RankedFacts(sellers, products, records);
    var id := sorted[i].sellerId;
    FinalStatsShape(sellers, products, records);
    UntouchedSeller(InitialStats(sellers), records, ProductIndex(products), id);
  }

  /** Each row lists at most ten products, largest quantity first. */
  lemma ReportTopProductsBounded(sellers: seq<Seller>, products: seq<Product>, records: seq<PurchaseRecord>,
                                 calculateBonus: BonusPolicy)
    ensures var rows := Report(sellers, products, records, calculateBonus);
      forall i :: 0 <= i < |rows| ==>
        && |rows[i].topProducts| <= 10
        && forall a, b :: 0 <= a < b < |rows[i].topProducts| ==>
             rows[i].topProducts[a].quantity >= rows[i].topProducts[b].quantity
  {
    var sorted := Ranked(sellers, products, records);
    var rows := Report(sellers, products, records, calculateBonus);
    forall i | 0 <= i < |rows|
      ensures |rows[i].topProducts| <= 10
      ensures forall a, b :: 0 <= a < b < |rows[i].topProducts| ==>
        rows[i].topProducts[a].quantity >= rows[i].topProducts[b].quantity
    {
      var top := TopProducts(sorted[i].productsSold);
      assert rows[i].topProducts == top;
      assert SortedDesc(top, QuantityKey);
      forall a, b | 0 <= a < b < |top| ensures top[a].quantity >= top[b].quantity {
        assert QuantityKey(top[a]) >= QuantityKey(top[b]);
      }
    }
  }

  // ---------------------------------------------------------------- conservation of sales counts

  /** Number of records whose seller id is one of `order`. */
  function KnownCount(records: seq<PurchaseRecord>, order: seq<string>): nat
    decreases |records|
  {
    if records == [] then 0
    else KnownCount(records[..|records| - 1], order) + (if records[|records| - 1].sellerId in order then 1 else 0)
  }

  /** Sum over the ids of `order` of their record counts. */
  function CountsOver(order: seq<string>, records: seq<PurchaseRecord>): nat
  {
    if order == [] then 0 else CountFor(records, order[0]) + CountsOver(order[1..], records)
  }

  lemma {:induction false} CountsOverSnoc(order: seq<string>, records: seq<PurchaseRecord>, rec: PurchaseRecord)
    requires Distinct(order)
    ensures CountsOver(order, records + [rec]) ==
      CountsOver(order, records) + (if rec.sellerId in order then 1 else 0)
  {
    if order != [] {
      assert (records + [rec])[..|records|] == records;
      assert Distinct(order[1..]) by {
        forall i, j | 0 <= i < j < |order[1..]| ensures order[1..][i] != order[1..][j] {
          assert order[1..][i] == order[i + 1] && order[1..][j] == order[j + 1];
        }
      }
      CountsOverSnoc(order[1..], records, rec);
      assert rec.sellerId in order <==> rec.sellerId == order[0] || rec.sellerId in order[1..];
      if rec.sellerId == order[0] {
        assert rec.sellerId !in order[1..];
      }
    }
  }

  lemma {:induction false} CountsOverEmpty(order: seq<string>)
    ensures CountsOver(order, []) == 0
  {
    if order != [] {
      CountsOverEmpty(order[1..]);
    }
  }

  /** With distinct ids, summing the per-seller counts counts each known record once. */
  lemma {:induction false} CountsOverIsKnownCount(order: seq<string>, records: seq<PurchaseRecord>)
    requires Distinct(order)
    ensures CountsOver(order, records) == KnownCount(records, order)
    decreases |records|
  {
    if records == [] {
      CountsOverEmpty(order);
    } else {
      var n := |records| - 1;
      CountsOverIsKnownCount(order, records[..n]);
      CountsOverSnoc(order, records[..n], records[n]);
      assert records[..n] + [records[n]] == records;
    }
  }

  lemma {:induction false} SalesOfValues(stats: map<string, SellerAcc>, order: seq<string>, records: seq<PurchaseRecord>)
    requires forall k :: 0 <= k < |order| ==>
      order[k] in stats && stats[order[k]].salesCount == CountFor(records, order[k])
    ensures SumOf(ValuesInOrder(stats, order), AccSales) == CountsOver(order, records)
  {
    if order != [] {
      SalesOfValues(stats, order[1..], records);
      assert ValuesInOrder(stats, order) == [stats[order[0]]] + ValuesInOrder(stats, order[1..]);
    }
  }

  /**
   * The sales counts of the rows add up to the number of purchase records
   * whose seller id belongs to some seller.
   */
  lemma ReportSalesCountTotal(sellers: seq<Seller>, products: seq<Product>, records: seq<PurchaseRecord>,
                              calculateBonus: BonusPolicy)
    ensures SumOf(Report(sellers, products, records, calculateBonus), RowSales) ==
      KnownCount(records, SellerOrder(sellers))
  {
    var stats := FinalStats(sellers, products, records);
    var order := SellerOrder(sellers);
    var sorted := Ranked(sellers, products, records);
    FinalStatsShape(sellers, products, records);
    var values := ValuesInOrder(stats, order);
    forall k | 0 <= k < |order| ensures order[k] in stats && stats[order[k]].salesCount == CountFor(records, order[k]) {
      FinalStatsTotals(sellers, products, records, order[k]);
    }
    SalesOfValues(stats, order, records);
    CountsOverIsKnownCount(order, records);
    assert sorted == SortDesc(values, ProfitOf);
    SumOfSort(values, ProfitOf, AccSales);
    SumOfPointwise(Rows(sorted, calculateBonus), RowSales, sorted, AccSales);
  }

  // ---------------------------------------------------------------- bonuses

  /**
   * With the profit-rank policy as `calculateBonus`, a row's bonus is its
   * rank's tier: the last row gets 0, the first 15 when there are at least
   * two rows, and a higher row never gets less than a lower one.
   */
  lemma ReportBonusTiers(sellers: seq<Seller>, products: seq<Product>, records: seq<PurchaseRecord>)
    ensures var rows := Report(sellers, products, records, CalculateBonusByProfit);
      && (|rows| >= 1 ==> rows[|rows| - 1].bonus == 0.0)
      && (|rows| >= 2 ==> rows[0].bonus == 15.0)
      && (forall i, j :: 0 <= i < j < |rows| ==> rows[i].bonus >= rows[j].bonus)
      && (forall i :: 0 <= i < |rows| ==> rows[i].bonus in {0.0, 5.0, 10.0, 15.0})
  {
    RowsBonusTiers(Ranked(sellers, products, records));
  }

  /** The tier facts for the rows of any ranking. */
  lemma RowsBonusTiers(sorted: seq<SellerAcc>)
    ensures var rows := Rows(sorted, CalculateBonusByProfit);
      && (|rows| >= 1 ==> rows[|rows| - 1].bonus == 0.0)
      && (|rows| >= 2 ==> rows[0].bonus == 15.0)
      && (forall i, j :: 0 <= i < j < |rows| ==> rows[i].bonus >= rows[j].bonus)
      && (forall i :: 0 <= i < |rows| ==> rows[i].bonus in {0.0, 5.0, 10.0, 15.0})
  {
    var rows := Rows(sorted, CalculateBonusByProfit);
    if |rows| >= 1 {
      BonusFollowsRank(|rows|, sorted[0], sorted[0]);
      forall i, j | 0 <= i < j < |rows| ensures rows[i].bonus >= rows[j].bonus {
        BonusFollowsRank(|rows|, sorted[i], sorted[j]);
      }
    }
  }

  // ---------------------------------------------------------------- a worked example

  /**
   * One seller, one product bought at 5, one receipt of 100 selling two
   * units at 20 without discount: revenue 100, profit 40 - 10 = 30, one
   * sale, the product as its only top product, and no bonus for a lone seller.
   */
  lemma SingleSellerScenario()
    ensures Report([Seller("1", "Ivan", "Petrov")], [Product("A", 5.0)],
                   [PurchaseRecord("1", Some(100.0), [Item("A", 2, 20.0, 0.0)])], CalculateBonusByProfit)
         == [ReportRow("1", "Ivan Petrov", 100.0, 30.0, 1, [ProductCount("A", 2)], 0.0)]
  {
    var sellers := [Seller("1", "Ivan", "Petrov")];
    var products := [Product("A", 5.0)];
    var rec := PurchaseRecord("1", Some(100.0), [Item("A", 2, 20.0, 0.0)]);
    var acc := SellerAcc("1", "Ivan Petrov", 100.0, 30.0, 1, [ProductCount("A", 2)]);
    ScenarioFinalStats();
    assert SellerOrder(sellers) == ["1"];
    assert ValuesInOrder(map["1" := acc], ["1"]) == [acc];
    assert SortDesc([acc], ProfitOf) == [acc];
    assert Ranked(sellers, products, [rec]) == [acc];
    ScenarioRows(acc);
  }

  /** The accumulators of the worked example after the aggregation pass. */
  lemma ScenarioFinalStats()
    ensures FinalStats([Seller("1", "Ivan", "Petrov")], [Product("A", 5.0)],
                       [PurchaseRecord("1", Some(100.0), [Item("A", 2, 20.0, 0.0)])])
         == map["1" := SellerAcc("1", "Ivan Petrov", 100.0, 30.0, 1, [ProductCount("A", 2)])]
  {
    var sellers := [Seller("1", "Ivan", "Petrov")];
    var products := [Product("A", 5.0)];
    var item := Item("A", 2, 20.0, 0.0);
    var rec := PurchaseRecord("1", Some(100.0), [item]);
    var index := ProductIndex(products);
    assert index == map["A" := Product("A", 5.0)];
    var stats0 := InitialStats(sellers);
    assert sellers[..0] == [];
    assert "Ivan" + " " + "Petrov" == "Ivan Petrov";
    assert FreshAcc(sellers[0]) == SellerAcc("1", "Ivan Petrov", 0.0, 0.0, 0, []);
    assert stats0 == map["1" := SellerAcc("1", "Ivan Petrov", 0.0, 0.0, 0, [])];
    var counted := SellerAcc("1", "Ivan Petrov", 100.0, 0.0, 1, []);
    assert [item][..0] == [];
    assert ItemProfit(item, Product("A", 5.0)) == 30.0;
    var acc := SellerAcc("1", "Ivan Petrov", 100.0, 30.0, 1, [ProductCount("A", 2)]);
    assert ApplyItems(counted, [item], index) == acc;
    assert [rec][..0] == [];
    assert ApplyRecords(stats0, [], index) == stats0;
    assert ApplyRecord(stats0, rec, index) == map["1" := acc];
    assert ApplyRecords(stats0, [rec], index) == ApplyRecord(ApplyRecords(stats0, [], index), rec, index);
  }

  /** The row of the worked example's lone seller. */
  lemma ScenarioRows(acc: SellerAcc)
    requires acc == SellerAcc("1", "Ivan Petrov", 100.0, 30.0, 1, [ProductCount("A", 2)])
    ensures Rows([acc], CalculateBonusByProfit)
         == [ReportRow("1", "Ivan Petrov", 100.0, 30.0, 1, [ProductCount("A", 2)], 0.0)]
  {
    assert TopProducts([ProductCount("A", 2)]) == [ProductCount("A", 2)];
    var rows := Rows([acc], CalculateBonusByProfit);
    assert |rows| == 1;
    assert rows[0] == ToRow(RankedSeller(acc, CalculateBonusByProfit(0, 1, acc), TopProducts(acc.productsSold)));
  }
}
