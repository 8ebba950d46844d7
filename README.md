# Sales bonus report — a verified Dafny model

This project models the sales-report pipeline of `src/main.js`: `analyzeSalesData(data, options)` and its two policy functions. The pipeline runs in four steps:

- It checks the shape of its arguments and throws on the first failing check.
- It creates one zeroed accumulator per seller id and indexes the catalog by sku.
- It walks the purchase records once. Each record of a known seller adds one sale and the record's `total_amount` to that seller. Each item with a known sku adds its profit and its quantity to `products_sold`.
- It sorts the sellers by profit, largest first. Each seller gets `calculateBonus(index, total, seller)` and its ten best-selling products. One row per seller is returned.

The two policies are `calculateBonusByProfit` and `calculateSimpleRevenue`:

- `calculateBonusByProfit` is the rank-tier rule: 0 for last place, checked first; 15 for first; 10 for second and third; 5 otherwise.
- `calculateSimpleRevenue` is the discounted sum over a purchase's items.

Modules, one per component:

- `Wrappers` (wrappers.dfy): `Option`, `Result`, `Outcome`.
- `SalesTypes` (sales_types.dfy): sellers, products, items, purchase records, the accumulator `SellerAcc`, report rows, the argument datatypes with optional fields, and the error kinds.
- `Policies` (policies.dfy): `CalculateSimpleRevenue` (a loop proved against `ItemsRevenue`) and `CalculateBonusByProfit`.
- `KeyOrder` (key_order.dfy): the insertion order of an object's string keys. A key is placed when it is first assigned and keeps its place when it is assigned again. `Object.values` and `Object.entries` follow this order.
- `StableSort` (stable_sort.dfy): the library sort the source calls. It is a stable descending sort on a real key. The module proves the result is sorted, is a permutation of the input, keeps input order among equal keys, and is the only sequence with those properties.
- `Aggregation` (aggregation.dfy): the initialisation loop, the sku index, and the aggregation loop. The loops are proved against the functions `InitialStats`/`SellerOrder` and `ApplyRecords`/`ApplyItems`. Reference totals per seller (`CountFor`, `AmountFor`, `ProfitFor`, `SoldFor`) are proved equal to what the pass accumulates.
- `Ranking` (ranking.dfy): `Object.values` order, the top-10 list and the bonus loop.
- `SalesReport` (sales_report.dfy): argument validation and the pipeline method `AnalyzeSalesData`. The method is proved equal to the function `Report`. After the checks, it calls `BuildReport` and `EmitRows`.
- `ReportProperties` (report_properties.dfy): what the report promises about its rows.

Money is `real`, so sums are exact. Quantities and sales counts are integers. Seller ids and skus are strings.

The model has one error kind per check, seven in all, in the code's order.

## Model

| member | source | states |
|---|---|---|
| `Policies.CalculateSimpleRevenue` | src/main.js:7-19 | the loop returns the sum over the purchase's items of `sale_price * quantity * (1 - discount/100)`; the product argument is unused |
| `Policies.ItemsRevenueAppend` | src/main.js:11-16 | the revenue of a concatenation of item lists is the sum of their revenues |
| `Policies.DiscountedRevenueBounds` | src/main.js:12-14 | a line with non-negative price and quantity and discount in [0,100] earns between 0 and its undiscounted price |
| `Policies.ItemsRevenueBounds` | src/main.js:9-18 | under the same conditions the purchase revenue is non-negative and at most the undiscounted total (an empty list gives 0) |
| `Policies.CalculateBonusByProfit` | src/main.js:29-44 | the bonus is always one of the tiers 0, 5, 10, 15 |
| `Policies.BonusFollowsRank` | src/main.js:31-43 | last place gets 0, first place gets 15 when it is not also last, and a better rank never gets less |
| `Policies.LoneSellerGetsNoBonus` | src/main.js:31-37 | with one seller the last-place check wins: bonus 0, not 15 |
| `Policies.FiveSellerBonuses` | src/main.js:29-44 | five ranked sellers get 15, 10, 10, 5, 0 |
| `StableSort.Insert` | src/main.js:156 | inserting into a descending sequence keeps it descending and adds exactly the inserted element |
| `StableSort.SortDesc` | src/main.js:156 | the sort returns a descending permutation of its input |
| `StableSort.SortIsStable` | src/main.js:156 | for every key value, the sorted result lists the elements with that key in input order |
| `StableSort.SortedStableIsUnique` | src/main.js:156 | two descending sequences that agree on the order of every key's elements are equal |
| `StableSort.SortIsTheStableArrangement` | src/main.js:156 | any descending sequence that keeps input order among equal keys is the sort's result |
| `StableSort.SortTiesIncrease` | src/main.js:156 | stability by position: if some measure strictly increases along the input, elements with equal keys come out in increasing measure |
| `StableSort.SumOfSort` | src/main.js:156 | sorting does not change a sum over the elements |
| `StableSort.MapSeqSort` | src/main.js:156 | sorting permutes the images of the elements under any function |
| `StableSort.DistinctPermutation` | src/main.js:156 | a permutation of a duplicate-free sequence is duplicate-free |
| `StableSort.Take` | src/main.js:168 | `slice(0, n)` keeps the first `min(n, length)` elements |
| `StableSort.WithKeyOfPrefix` | src/main.js:168 | cutting a sequence keeps, for every key, a prefix of that key's elements |
| `KeyOrder.AppendNew` | src/main.js:90-98 | assigning keys in turn gives each key once, keeps the keys already present at the front in their order, and adds nothing else |
| `KeyOrder.AppendNewConcat` | src/main.js:90-98 | assigning two runs of keys one after the other orders the keys as assigning both runs at once |
| `KeyOrder.AppendNewFirstSeen` | src/main.js:90-98 | starting from no keys, the keys come in the order of their first assignment |
| `Aggregation.InitialStats` | src/main.js:88-99 | there is an accumulator exactly for each seller id; it is filed under its own id and is zeroed (revenue, profit, sales count 0, no products sold) |
| `Aggregation.SellerOrder` | src/main.js:88-99 | the key order of `sellerStats` holds each seller id exactly once, and only seller ids |
| `Aggregation.SellerOrderFirstAppearance` | src/main.js:90-98 | the ids in that key order follow the position of the first seller with each id |
| `Aggregation.InitialStatsLastWins` | src/main.js:90-98 | an id's accumulator is the fresh one for the last seller with that id, named `first_name + " " + last_name` |
| `Aggregation.InitStats` | src/main.js:88-99 | the initialisation loop builds exactly `InitialStats` and `SellerOrder` |
| `Aggregation.ProductIndex` | src/main.js:107-109 | a sku is indexed exactly when some product has it, and its entry has that sku |
| `Aggregation.ProductIndexLastWins` | src/main.js:107-109 | a sku's entry is the last product listed with that sku |
| `Aggregation.AddSold` | src/main.js:148-151 | `products_sold[sku] += quantity` adds `quantity` to that sku's count only, and appends the sku when it is new (created at 0) |
| `Aggregation.QuantityOfEntry` | src/main.js:148-151 | with distinct skus, an entry's quantity is the count recorded for its sku |
| `Aggregation.ApplyItem` | src/main.js:129-151 | an unknown sku leaves the accumulator unchanged; a known one adds `sale_price*quantity*(1-discount/100) - purchase_price*quantity` to profit and `quantity` to that sku's count. The sku keeps its place in `products_sold`, or is appended when new. Nothing else changes |
| `Aggregation.ApplyItems` | src/main.js:129-152 | items never change a seller's id, name, revenue or sales count |
| `Aggregation.ApplyRecord` | src/main.js:114-126 | a record of an unknown seller changes nothing; otherwise only that seller changes: sales count +1, revenue + `total_amount` (0 when absent), whatever its items do |
| `Aggregation.ApplyRecords` | src/main.js:114-153 | the pass keeps the set of seller ids and each accumulator's id and name |
| `Aggregation.AggregateRecords` | src/main.js:114-153 | the record loop computes exactly `ApplyRecords` |
| `Aggregation.AddRecord` | src/main.js:114-126 | one pass of the record loop computes exactly `ApplyRecord`: an unknown seller is skipped, otherwise the sale is counted, the amount added, then the items |
| `Aggregation.AddItems` | src/main.js:129-152 | the item loop computes exactly `ApplyItems`; skipped items are not rolled back into the record's count or revenue |
| `Aggregation.ApplyItemsTotals` | src/main.js:129-152 | a record's items add the profit of the known items and their quantities per sku. They keep the skus distinct and append each new known sku in item order |
| `Aggregation.RecordTotals` | src/main.js:114-152 | one record adds its own contribution to its seller's counters and sku order, and nothing to any other seller |
| `Aggregation.AggregateTotals` | src/main.js:114-153 | after the pass, a seller's counters equal its starting counters plus, over its own records, the record count, the amounts, the known items' profit and each known sku's quantity. Its sku list is its starting list followed by the new known skus of its records, in the order of their first sale |
| `Aggregation.UntouchedSeller` | src/main.js:114-153 | a seller that no record names keeps its starting accumulator |
| `Ranking.ValuesInOrder` | src/main.js:156 | `Object.values` lists one value per key, in key order: entry `k` is the value under the `k`-th key |
| `Ranking.TopProducts` | src/main.js:165-168 | the top list has `min(10, n)` entries, is non-increasing by quantity, and takes its entries from `products_sold` |
| `Ranking.TopProductsAreBest` | src/main.js:165-168 | a product left out of the top list sold no more than any product in it |
| `Ranking.TopProductsKeepFirstSold` | src/main.js:165-168 | among products sold in equal quantity, the top list keeps the first-sold ones in first-sold order |
| `Ranking.ToRow` | src/main.js:173-181 | an output row copies id, name, revenue, profit and sales count from the seller's accumulator, with its top products and bonus |
| `Ranking.RankSellers` | src/main.js:160-169 | the `forEach` gives the seller at `index` the bonus `calculateBonus(index, total, seller)` and its top products |
| `SalesReport.Validate` | src/main.js:55-84 | the checks pass exactly when every collection and both policies are present; each error is raised exactly when its check is the first to fail, in source order |
| `SalesReport.Ranked` | src/main.js:156 | the sorted sellers are one per seller id, non-increasing in profit |
| `SalesReport.Rows` | src/main.js:160-181 | row `i` copies the `i`-th ranked seller's id, name, revenue, profit and sales count, with its top products and `calculateBonus(i, n, seller)` |
| `SalesReport.Report` | src/main.js:88-181 | the report has one row per seller id, and rows are ordered by profit, non-increasing |
| `SalesReport.AnalyzeSalesData` | src/main.js:52-182 | a failing check returns that error and builds nothing; otherwise the method returns exactly `Report` |
| `SalesReport.BuildReport` | src/main.js:88-181 | the steps after the checks compute exactly `Report` |
| `SalesReport.EmitRows` | src/main.js:160-181 | the bonus `forEach` followed by the output `map` computes exactly `Rows` |
| `ReportProperties.RankedFacts` | src/main.js:156 | the ranking is non-increasing in profit, a permutation of the seller ids, and each entry is that seller's final accumulator |
| `ReportProperties.ReportHasOneRowPerSeller` | src/main.js:88-181 | the row ids are the distinct seller ids, each exactly once, and an id has a row exactly when some seller has it |
| `ReportProperties.ReportTiesFollowSellerOrder` | src/main.js:156 | of two rows with equal profit, the upper one belongs to the seller listed first in `sellers` |
| `ReportProperties.FinalStatsTotals` | src/main.js:114-153 | a seller's final counters are the totals of its own records |
| `ReportProperties.SoldInFirstSaleOrder` | src/main.js:148-151 | a seller's `products_sold` lists each catalog sku it sold exactly once, in the order of first sale |
| `ReportProperties.ReportRowTotals` | src/main.js:114-181 | each row holds its seller's record count, amount total and known-item profit; its top products are entries of that seller's `products_sold` carrying all of that sku the seller sold |
| `ReportProperties.ReportQuietSeller` | src/main.js:88-181 | a seller named by no record still gets a row, with zero counters and no top products |
| `ReportProperties.ReportTopProductsBounded` | src/main.js:165-168 | every row has at most ten top products, non-increasing by quantity |
| `ReportProperties.CountsOverIsKnownCount` | src/main.js:114-123 | over distinct seller ids, the per-seller record counts add up to the number of records whose seller is known |
| `ReportProperties.ReportSalesCountTotal` | src/main.js:114-123 | the rows' sales counts add up to the number of purchase records whose seller id belongs to a seller |
| `ReportProperties.ReportBonusTiers` | src/main.js:160-162 | with `calculateBonusByProfit`, the last row gets 0, the first 15 when there are two or more rows, bonuses never rise down the report, and each is a tier |
| `ReportProperties.SingleSellerScenario` | src/main.js:52-182 | one seller, product A bought at 5, one receipt of 100 for two A at 20: revenue 100, profit 30, one sale, top product A×2, bonus 0 |

## Left out

- Rounding: `toFixed(2)` on revenue, profit and bonus (src/main.js:176-180) is not modelled. Rows carry the exact, unrounded values. IEEE-754 behaviour (NaN, infinities, rounding during accumulation) is not modelled either: money is exact `real`.
- `calculateRevenue` is only checked for presence (src/main.js:78), because the source never calls it. The model holds it as an optional function value and never applies it.
- `calculateBonus` is any total function `(index, total, seller) -> real`. The tier results (`ReportBonusTiers`) are proved for `CalculateBonusByProfit` only.
- Key enumeration order: `Object.values` and `Object.entries` (src/main.js:156,165) are modelled in key-insertion order (`KeyOrder`). JavaScript lists integer-like keys first, in ascending numeric order; that quirk is not modelled.
- Key coercion and inherited keys: ids and skus are strings. Numeric ids that JavaScript coerces to the same key are not modelled. Prototype keys such as `toString`, which the source's object lookups would find for a missing id or sku, are not modelled.
- The unused `sellersMap` (src/main.js:103-105) is not modelled.
- Error messages are error kinds, one per check. The `typeof`/`Array.isArray` tests are modelled as optional fields of the argument datatypes: a `None` is any missing or ill-typed value.
- Element shapes are not checked by the source and are not modelled. The model assumes every record has an item list and every item has its fields. Missing ones would make JavaScript throw or produce NaN.
- Quantities are integers; fractional quantities are not modelled. A falsy `total_amount` (absent, `null`, `0`) is `None` or `Some(0)`, and both add 0.
- Accumulators are values in a map that the loops reassign, not shared objects. The source's `forEach` writes `bonus` and `top_products` onto the same objects that `sellerStats` holds. The model returns them in new `RankedSeller` values instead. Nothing reads `sellerStats` after that point, so the difference is not observable.
- Some parts of the source's single function are separate methods: `AddRecord` is the body of the record loop, `AddItems` is the inner loop over a record's items, and `BuildReport` and `EmitRows` are the steps after the checks. Together they behave as the source's function.
- Idempotence needs no lemma: `Report` is a function, so equal arguments give equal rows.
