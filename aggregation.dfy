/**
 * Steps 2 and 3 of `analyzeSalesData`: one zeroed accumulator per seller id,
 * the sku index of the catalog, and the single pass over the purchase
 * records that updates the matched seller's counters.
 */
module Aggregation {
  import opened Wrappers
  import opened SalesTypes
  import opened Policies
  import opened StableSort
  import opened KeyOrder

  // ---------------------------------------------------------------- sellers

  /** Some seller in `sellers` has id `id`. */
  predicate IsSellerId(sellers: seq<Seller>, id: string)
  {
    exists k :: 0 <= k < |sellers| && sellers[k].id == id
  }

  /** The accumulator created for `seller`: its display name and zeroed counters. */
  function FreshAcc(seller: Seller): SellerAcc
  {
    SellerAcc(seller.id, seller.firstName + " " + seller.lastName, 0.0, 0.0, 0, [])
  }

  /** Nothing has been sold or earned yet. */
  predicate IsZeroed(acc: SellerAcc)
  {
    acc.revenue == 0.0 && acc.profit == 0.0 && acc.salesCount == 0 && acc.productsSold == []
  }

  lemma IsSellerIdSnoc(sellers: seq<Seller>, id: string)
    requires sellers != []
    ensures IsSellerId(sellers, id) <==>
      IsSellerId(sellers[..|sellers| - 1], id) || sellers[|sellers| - 1].id == id
  {
    var n := |sellers| - 1;
    if IsSellerId(sellers, id) && sellers[n].id != id {
      var k :| 0 <= k < |sellers| && sellers[k].id == id;
      assert sellers[..n][k] == sellers[k];
    }
    if IsSellerId(sellers[..n], id) {
      var k :| 0 <= k < n && sellers[..n][k].id == id;
      assert sellers[k].id == id;
    }
  }

  /**
   * `sellerStats` after the initialisation loop: one entry per seller id,
   * a later seller with the same id replacing the earlier entry.
   */
  function InitialStats(sellers: seq<Seller>): (stats: map<string, SellerAcc>)
    ensures forall id :: id in stats <==> IsSellerId(sellers, id)
    ensures forall id :: id in stats ==> stats[id].sellerId == id && IsZeroed(stats[id])
    decreases |sellers|
  {
    if sellers == [] then map[]
    else
      var n := |sellers| - 1;
      forall id ensures IsSellerId(sellers, id) <==> IsSellerId(sellers[..n], id) || sellers[n].id == id {
        IsSellerIdSnoc(sellers, id);
      }
      InitialStats(sellers[..n])[sellers[n].id := FreshAcc(sellers[n])]
  }

  /** The seller ids, in the order of `sellers`. */
  function Ids(sellers: seq<Seller>): seq<string>
  {
    seq(|sellers|, k requires 0 <= k < |sellers| => sellers[k].id)
  }

  /**
   * The key order of `sellerStats`: each seller id once, at the place of
   * the first seller that has it.
   */
  function SellerOrder(sellers: seq<Seller>): (order: seq<string>)
    ensures Distinct(order)
    ensures forall id :: id in order <==> IsSellerId(sellers, id)
  {
    var ids := Ids(sellers);
    forall id ensures IsSellerId(sellers, id) <==> id in ids {
      if IsSellerId(sellers, id) {
        var k :| 0 <= k < |sellers| && sellers[k].id == id;
        assert ids[k] == id;
      }
    }
    AppendNew([], ids)
  }

  /** The ids in the key order of `sellerStats` are in the order of their first seller. */
  lemma SellerOrderFirstAppearance(sellers: seq<Seller>)
    ensures var order := SellerOrder(sellers);
      forall i, j :: 0 <= i < j < |order| ==>
        FirstIndex(Ids(sellers), order[i]) < FirstIndex(Ids(sellers), order[j])
  {
    AppendNewFirstSeen(Ids(sellers));
  }

  /** One more seller adds its id at the end of the key order unless the id is already there. */
  lemma SellerOrderSnoc(sellers: seq<Seller>)
    requires sellers != []
    ensures var (n, prev) := (|sellers| - 1, SellerOrder(sellers[..|sellers| - 1]));
      SellerOrder(sellers) == if sellers[n].id in prev then prev else prev + [sellers[n].id]
  {
    var n := |sellers| - 1;
    assert Ids(sellers) == Ids(sellers[..n]) + [sellers[n].id];
    AppendNewSnoc([], Ids(sellers[..n]), sellers[n].id);
  }

  /** The entry of a seller id holds the name of the last seller listed with that id. */
  lemma {:induction false} InitialStatsLastWins(sellers: seq<Seller>, k: nat)
    requires k < |sellers|
    requires forall k' :: k < k' < |sellers| ==> sellers[k'].id != sellers[k].id
    ensures InitialStats(sellers)[sellers[k].id] == FreshAcc(sellers[k])
    decreases |sellers|
  {
    var n := |sellers| - 1;
    var prev := InitialStats(sellers[..n]);
    assert InitialStats(sellers) == prev[sellers[n].id := FreshAcc(sellers[n])];
    if k < n {
      assert forall k' :: k < k' < n ==> sellers[..n][k'] == sellers[k'];
      InitialStatsLastWins(sellers[..n], k);
      assert sellers[..n][k] == sellers[k];
      assert sellers[n].id != sellers[k].id;
    }
  }

  /** Builds `sellerStats` and the insertion order of its keys. */
  method InitStats(sellers: seq<Seller>) returns (stats: map<string, SellerAcc>, order: seq<string>)
    ensures stats == InitialStats(sellers) && order == SellerOrder(sellers)
  {
    stats, order := map[], [];
    for i := 0 to |sellers|
      invariant stats == InitialStats(sellers[..i])
      invariant order == SellerOrder(sellers[..i])
      invariant forall id :: id in order <==> id in stats
    {
      assert sellers[..i + 1][..i] == sellers[..i];
      SellerOrderSnoc(sellers[..i + 1]);
      var seller := sellers[i];
      if seller.id !in stats {
        order := order + [seller.id];
      }
      stats := stats[seller.id := FreshAcc(seller)];
    }
    assert sellers[..|sellers|] == sellers;
  }

  // ---------------------------------------------------------------- products

  /** `productsMap`: each sku to its product, a later product with the same sku winning. */
  function ProductIndex(products: seq<Product>): (index: map<string, Product>)
    ensures forall sku :: sku in index <==> exists k :: 0 <= k < |products| && products[k].sku == sku
    ensures forall sku :: sku in index ==> index[sku].sku == sku
    decreases |products|
  {
    if products == [] then map[]
    else
      var n := |products| - 1;
      var prev := ProductIndex(products[..n]);
      assert forall k :: 0 <= k < n ==> products[..n][k] == products[k];
      prev[products[n].sku := products[n]]
  }

  /** A sku's entry is the last product listed with that sku. */
  lemma {:induction false} ProductIndexLastWins(products: seq<Product>, k: nat)
    requires k < |products|
    requires forall k' :: k < k' < |products| ==> products[k'].sku != products[k].sku
    ensures ProductIndex(products)[products[k].sku] == products[k]
    decreases |products|
  {
    var n := |products| - 1;
    if k < n {
      assert forall k' :: k < k' < n ==> products[..n][k'] == products[k'];
      ProductIndexLastWins(products[..n], k);
      assert products[..n][k] == products[k];
    }
  }

  // ---------------------------------------------------------------- products_sold

  /** The skus of `sold`, in order. */
  function Skus(sold: seq<ProductCount>): seq<string>
  {
    if sold == [] then [] else [sold[0].sku] + Skus(sold[1..])
  }

  /** The count recorded for `sku`, 0 when it has none. */
  function QuantityOf(sold: seq<ProductCount>, sku: string): int
  {
    if sold == [] then 0
    else if sold[0].sku == sku then sold[0].quantity
    else QuantityOf(sold[1..], sku)
  }

  /**
   * `products_sold[sku] += quantity`, the entry being created at 0 (and so
   * appended after the existing skus) when the sku is new.
   */
  function AddSold(sold: seq<ProductCount>, sku: string, quantity: int): (r: seq<ProductCount>)
    ensures Skus(r) == if sku in Skus(sold) then Skus(sold) else Skus(sold) + [sku]
    ensures forall s :: QuantityOf(r, s) == QuantityOf(sold, s) + (if s == sku then quantity else 0)
  {
    if sold == [] then [ProductCount(sku, quantity)]
    else if sold[0].sku == sku then [sold[0].(quantity := sold[0].quantity + quantity)] + sold[1..]
    else
      var rest := AddSold(sold[1..], sku, quantity);
      assert ([sold[0]] + rest)[1..] == rest;
      [sold[0]] + rest
  }

  /** Adding to a list with distinct skus keeps its skus distinct. */
  lemma AddSoldDistinct(sold: seq<ProductCount>, sku: string, quantity: int)
    requires Distinct(Skus(sold))
    ensures Distinct(Skus(AddSold(sold, sku, quantity)))
  {
  }

  /** With distinct skus, an entry's count is the count recorded for its sku. */
  lemma {:induction false} QuantityOfEntry(sold: seq<ProductCount>, e: ProductCount)
    requires Distinct(Skus(sold)) && e in sold
    ensures QuantityOf(sold, e.sku) == e.quantity
  {
    if sold[0] != e {
      var rest := Skus(sold[1..]);
      assert Skus(sold) == [sold[0].sku] + rest;
      assert Skus(sold)[0] == sold[0].sku && Skus(sold)[1..] == rest;
      assert Distinct(rest) by {
        forall i, j | 0 <= i < j < |rest| ensures rest[i] != rest[j] {
          assert rest[i] == Skus(sold)[i + 1] && rest[j] == Skus(sold)[j + 1];
        }
      }
      assert e in sold[1..];
      var k :| 0 <= k < |sold[1..]| && sold[1..][k] == e;
      SkusAt(sold[1..], k);
      assert Skus(sold)[k + 1] == e.sku;
      QuantityOfEntry(sold[1..], e);
    }
  }

  lemma {:induction false} SkusAt(sold: seq<ProductCount>, k: nat)
    requires k < |sold|
    ensures |Skus(sold)| == |sold| && Skus(sold)[k] == sold[k].sku
  {
    if k > 0 {
      SkusAt(sold[1..], k - 1);
    } else {
      SkusLength(sold);
    }
  }

  lemma {:induction false} SkusLength(sold: seq<ProductCount>)
    ensures |Skus(sold)| == |sold|
  {
    if sold != [] {
      SkusLength(sold[1..]);
    }
  }

  // ---------------------------------------------------------------- one record

  /** `purchase.total_amount || 0`. */
  function AmountOrZero(totalAmount: Option<real>): real
  {
    match totalAmount
    case Some(amount) => amount
    case None => 0.0
  }

  /** Profit of one purchase line: its discounted revenue less its purchase cost. */
  function ItemProfit(item: Item, product: Product): real
  {
    DiscountedRevenue(item) - product.purchasePrice * (item.quantity as real)
  }

  /** The effect of one item on the seller's accumulator; unknown skus are skipped. */
  function ApplyItem(acc: SellerAcc, item: Item, index: map<string, Product>): (r: SellerAcc)
    ensures item.sku !in index ==> r == acc
    ensures item.sku in index ==>
      && r.profit == acc.profit + ItemProfit(item, index[item.sku])
      && (forall s :: QuantityOf(r.productsSold, s) ==
            QuantityOf(acc.productsSold, s) + (if s == item.sku then item.quantity else 0))
      && Skus(r.productsSold) == AppendNew(Skus(acc.productsSold), [item.sku])
    ensures (r.sellerId, r.name, r.revenue, r.salesCount) == (acc.sellerId, acc.name, acc.revenue, acc.salesCount)
  {
    if item.sku !in index then acc
    else
      assert [] + [item.sku] == [item.sku];
      AppendNewSnoc(Skus(acc.productsSold), [], item.sku);
      acc.(profit := acc.profit + ItemProfit(item, index[item.sku]),
           productsSold := AddSold(acc.productsSold, item.sku, item.quantity))
  }

  /** The items of a record applied front to back; they never touch revenue or the sales count. */
  function ApplyItems(acc: SellerAcc, items: seq<Item>, index: map<string, Product>): (r: SellerAcc)
    ensures (r.sellerId, r.name, r.revenue, r.salesCount) == (acc.sellerId, acc.name, acc.revenue, acc.salesCount)
    decreases |items|
  {
    if items == [] then acc
    else ApplyItem(ApplyItems(acc, items[..|items| - 1], index), items[|items| - 1], index)
  }

  /**
   * The effect of one purchase record: a record of an unknown seller leaves
   * every accumulator as it was; otherwise only the seller's accumulator
   * changes, its sales count rising by one and its revenue by the record's
   * total amount before its items are applied.
   */
  function ApplyRecord(stats: map<string, SellerAcc>, rec: PurchaseRecord, index: map<string, Product>)
    : (r: map<string, SellerAcc>)
    ensures r.Keys == stats.Keys
    ensures rec.sellerId !in stats ==> r == stats
    ensures forall id :: id in stats && id != rec.sellerId ==> r[id] == stats[id]
    ensures rec.sellerId in stats ==>
      var (before, after) := (stats[rec.sellerId], r[rec.sellerId]);
      && after.sellerId == before.sellerId && after.name == before.name
      && after.salesCount == before.salesCount + 1
      && after.revenue == before.revenue + AmountOrZero(rec.totalAmount)
  {
    if rec.sellerId !in stats then stats
    else
      var seller := stats[rec.sellerId];
      var counted := seller.(salesCount := seller.salesCount + 1,
                             revenue := seller.revenue + AmountOrZero(rec.totalAmount));
      stats[rec.sellerId := ApplyItems(counted, rec.items, index)]
  }

  /** The purchase records applied front to back. */
  function ApplyRecords(stats: map<string, SellerAcc>, records: seq<PurchaseRecord>, index: map<string, Product>)
    : (r: map<string, SellerAcc>)
    ensures r.Keys == stats.Keys
    ensures forall id :: id in stats ==> r[id].sellerId == stats[id].sellerId && r[id].name == stats[id].name
    decreases |records|
  {
    if records == [] then stats
    else ApplyRecord(ApplyRecords(stats, records[..|records| - 1], index), records[|records| - 1], index)
  }

  /**
   * The aggregation loop of `analyzeSalesData`: each purchase record is
   * applied in turn.
   */
  method AggregateRecords(stats0: map<string, SellerAcc>, records: seq<PurchaseRecord>, index: map<string, Product>)
    returns (stats: map<string, SellerAcc>)
    ensures stats == ApplyRecords(stats0, records, index)
  {
    stats := stats0;
    for i := 0 to |records|
      invariant stats == ApplyRecords(stats0, records[..i], index)
    {
      assert records[..i + 1][..i] == records[..i];
      stats := AddRecord(stats, records[i], index);
    }
    assert records[..|records|] == records;
  }

  /**
   * The body of the aggregation loop for one record: a record of an unknown
   * seller is skipped; otherwise the seller's sale is counted, its total
   * amount added, then its items.
   */
  method AddRecord(stats0: map<string, SellerAcc>, purchase: PurchaseRecord, index: map<string, Product>)
    returns (stats: map<string, SellerAcc>)
    ensures stats == ApplyRecord(stats0, purchase, index)
  {
    stats := stats0;
    if purchase.sellerId !in stats {
      return;
    }
    var seller := stats[purchase.sellerId];
    seller := seller.(salesCount := seller.salesCount + 1);
    seller := seller.(revenue := seller.revenue + AmountOrZero(purchase.totalAmount));
    seller := AddItems(seller, purchase.items, index);
    stats := stats[purchase.sellerId := seller];
  }

  /**
   * The inner loop over a record's items: each item whose sku is in the
   * index adds its profit and its quantity to the seller; the others are
   * skipped.
   */
  method AddItems(seller0: SellerAcc, items: seq<Item>, index: map<string, Product>) returns (seller: SellerAcc)
    ensures seller == ApplyItems(seller0, items, index)
  {
    seller := seller0;
    for j := 0 to |items|
      invariant seller == ApplyItems(seller0, items[..j], index)
    {
      assert items[..j + 1][..j] == items[..j];
      var item := items[j];
      if item.sku !in index {
        continue;
      }
      var product := index[item.sku];
      var itemRevenue := item.salePrice * (item.quantity as real) * (1.0 - item.discount / 100.0);
      var itemCost := product.purchasePrice * (item.quantity as real);
      var itemProfit := itemRevenue - itemCost;
      assert itemProfit == ItemProfit(item, product);
      ghost var expected := ApplyItem(seller, item, index);
      seller := seller.(profit := seller.profit + itemProfit);
      seller := seller.(productsSold := AddSold(seller.productsSold, item.sku, item.quantity));
      assert seller == expected;
    }
    assert items[..|items|] == items;
  }

  // ---------------------------------------------------------------- reference totals

  /** Number of records of seller `id`. */
  function CountFor(records: seq<PurchaseRecord>, id: string): nat
    decreases |records|
  {
    if records == [] then 0
    else CountFor(records[..|records| - 1], id) + (if records[|records| - 1].sellerId == id then 1 else 0)
  }

  /** Sum of the total amounts (0 when absent) of the records of seller `id`. */
  function AmountFor(records: seq<PurchaseRecord>, id: string): real
    decreases |records|
  {
    if records == [] then 0.0
    else
      var last := records[|records| - 1];
      AmountFor(records[..|records| - 1], id) + (if last.sellerId == id then AmountOrZero(last.totalAmount) else 0.0)
  }

  /** Sum of the profit of the items whose sku is in the index. */
  function ItemsProfit(items: seq<Item>, index: map<string, Product>): real
    decreases |items|
  {
    if items == [] then 0.0
    else
      var last := items[|items| - 1];
      ItemsProfit(items[..|items| - 1], index) + (if last.sku in index then ItemProfit(last, index[last.sku]) else 0.0)
  }

  /** Sum of the profit of the known items in the records of seller `id`. */
  function ProfitFor(records: seq<PurchaseRecord>, id: string, index: map<string, Product>): real
    decreases |records|
  {
    if records == [] then 0.0
    else
      var last := records[|records| - 1];
      ProfitFor(records[..|records| - 1], id, index) + (if last.sellerId == id then ItemsProfit(last.items, index) else 0.0)
  }

  /** Total quantity of `sku` in `items`, counted only when the sku is in the index. */
  function ItemsSold(items: seq<Item>, sku: string, index: map<string, Product>): int
    decreases |items|
  {
    if items == [] then 0
    else
      var last := items[|items| - 1];
      ItemsSold(items[..|items| - 1], sku, index) + (if last.sku == sku && sku in index then last.quantity else 0)
  }

  /** Total quantity of `sku` sold by seller `id`, counted only when the sku is in the index. */
  function SoldFor(records: seq<PurchaseRecord>, id: string, sku: string, index: map<string, Product>): int
    decreases |records|
  {
    if records == [] then 0
    else
      var last := records[|records| - 1];
      SoldFor(records[..|records| - 1], id, sku, index) + (if last.sellerId == id then ItemsSold(last.items, sku, index) else 0)
  }

  /** The skus of the items found in the index, in item order. */
  function KnownSkus(items: seq<Item>, index: map<string, Product>): seq<string>
    decreases |items|
  {
    if items == [] then []
    else
      var last := items[|items| - 1];
      KnownSkus(items[..|items| - 1], index) + (if last.sku in index then [last.sku] else [])
  }

  /** The known skus in the records of seller `id`, in record order and item order. */
  function SkusFor(records: seq<PurchaseRecord>, id: string, index: map<string, Product>): seq<string>
    decreases |records|
  {
    if records == [] then []
    else
      var last := records[|records| - 1];
      SkusFor(records[..|records| - 1], id, index) + (if last.sellerId == id then KnownSkus(last.items, index) else [])
  }

  /**
   * The items of a record add their known profit and quantities, keep the
   * skus distinct, and append each new known sku in item order.
   */
  lemma {:induction false} ApplyItemsTotals(acc: SellerAcc, items: seq<Item>, index: map<string, Product>)
    requires Distinct(Skus(acc.productsSold))
    ensures ApplyItems(acc, items, index).profit == acc.profit + ItemsProfit(items, index)
    ensures forall sku ::
      QuantityOf(ApplyItems(acc, items, index).productsSold, sku) ==
      QuantityOf(acc.productsSold, sku) + ItemsSold(items, sku, index)
    ensures Distinct(Skus(ApplyItems(acc, items, index).productsSold))
    ensures Skus(ApplyItems(acc, items, index).productsSold) ==
      AppendNew(Skus(acc.productsSold), KnownSkus(items, index))
    decreases |items|
  {
    if items != [] {
      var n := |items| - 1;
      ApplyItemsTotals(acc, items[..n], index);
      var mid := ApplyItems(acc, items[..n], index);
      AddSoldDistinct(mid.productsSold, items[n].sku, items[n].quantity);
      var known := KnownSkus(items[..n], index);
      if items[n].sku in index {
        AppendNewConcat(Skus(acc.productsSold), known, [items[n].sku]);
      } else {
        assert known + [] == known;
      }
    }
  }

  /** Every accumulator's sku list is duplicate-free. */
  predicate SkusDistinct(stats: map<string, SellerAcc>)
  {
    forall id :: id in stats ==> Distinct(Skus(stats[id].productsSold))
  }

  /** One record adds its own contribution to the counters of seller `id`. */
  lemma RecordTotals(stats: map<string, SellerAcc>, rec: PurchaseRecord, index: map<string, Product>, id: string)
    requires id in stats && SkusDistinct(stats)
    ensures SkusDistinct(ApplyRecord(stats, rec, index))
    ensures var (before, after) := (stats[id], ApplyRecord(stats, rec, index)[id]);
      && after.sellerId == before.sellerId && after.name == before.name
      && after.salesCount == before.salesCount + (if rec.sellerId == id then 1 else 0)
      && after.revenue == before.revenue + (if rec.sellerId == id then AmountOrZero(rec.totalAmount) else 0.0)
      && after.profit == before.profit + (if rec.sellerId == id then ItemsProfit(rec.items, index) else 0.0)
      && (forall sku ::
            QuantityOf(after.productsSold, sku) ==
            QuantityOf(before.productsSold, sku) + (if rec.sellerId == id then ItemsSold(rec.items, sku, index) else 0))
      && Skus(after.productsSold) ==
         AppendNew(Skus(before.productsSold), if rec.sellerId == id then KnownSkus(rec.items, index) else [])
  {
    if rec.sellerId in stats {
      var seller := stats[rec.sellerId];
      var counted := seller.(salesCount := seller.salesCount + 1,
                             revenue := seller.revenue + AmountOrZero(rec.totalAmount));
      ApplyItemsTotals(counted, rec.items, index);
    }
  }

  /**
   * After the pass, each seller's counters are its starting counters plus
   * the totals of its own records: the number of records, their amounts,
   * the profit of their known items and the quantity of each known sku.
   */
  lemma {:induction false} AggregateTotals(stats: map<string, SellerAcc>, records: seq<PurchaseRecord>,
                                           index: map<string, Product>, id: string)
    requires id in stats && SkusDistinct(stats)
    ensures SkusDistinct(ApplyRecords(stats, records, index))
    ensures var (before, after) := (stats[id], ApplyRecords(stats, records, index)[id]);
      && after.sellerId == before.sellerId && after.name == before.name
      && after.salesCount == before.salesCount + CountFor(records, id)
      && after.revenue == before.revenue + AmountFor(records, id)
      && after.profit == before.profit + ProfitFor(records, id, index)
      && (forall sku ::
            QuantityOf(after.productsSold, sku) ==
            QuantityOf(before.productsSold, sku) + SoldFor(records, id, sku, index))
      && Skus(after.productsSold) == AppendNew(Skus(before.productsSold), SkusFor(records, id, index))
    decreases |records|
  {
    if records != [] {
      var n := |records| - 1;
      var rec := records[n];
      AggregateTotals(stats, records[..n], index, id);
      RecordTotals(ApplyRecords(stats, records[..n], index), rec, index, id);
      AppendNewConcat(Skus(stats[id].productsSold), SkusFor(records[..n], id, index),
                      if rec.sellerId == id then KnownSkus(rec.items, index) else []);
    }
  }

  /** A seller that no record names keeps its starting accumulator. */
  lemma {:induction false} UntouchedSeller(stats: map<string, SellerAcc>, records: seq<PurchaseRecord>,
                                           index: map<string, Product>, id: string)
    requires id in stats
    requires forall k :: 0 <= k < |records| ==> records[k].sellerId != id
    ensures ApplyRecords(stats, records, index)[id] == stats[id]
    decreases |records|
  {
    if records != [] {
      var n := |records| - 1;
      assert forall k :: 0 <= k < n ==> records[..n][k] == records[k];
      UntouchedSeller(stats, records[..n], index, id);
    }
  }
}
