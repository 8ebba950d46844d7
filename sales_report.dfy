/**
 * `analyzeSalesData`: validate the arguments, build the accumulators, walk
 * the purchase records, rank the sellers and emit one row per seller.
 */
module SalesReport {
  import opened Wrappers
  import opened SalesTypes
  import opened StableSort
  import opened Aggregation
  import opened Ranking

  // ---------------------------------------------------------------- validation

  /** Every field the report needs is present and of the right kind. */
  predicate WellFormed(data: Option<SalesData>, options: Option<Options>)
  {
    && data.Some?
    && data.value.sellers.Some? && data.value.products.Some? && data.value.purchaseRecords.Some?
    && options.Some?
    && options.value.calculateRevenue.Some? && options.value.calculateBonus.Some?
  }

  /**
   * The argument checks, in the order the source makes them: the first
   * failing check decides the error.
   */
  function Validate(data: Option<SalesData>, options: Option<Options>): (r: Outcome<ValidationError>)
    ensures r.Pass? <==> WellFormed(data, options)
    ensures r == Fail(DataNotObject) <==> data.None?
    ensures r == Fail(SellersMissing) <==> data.Some? && data.value.sellers.None?
    ensures r == Fail(ProductsMissing) <==>
      data.Some? && data.value.sellers.Some? && data.value.products.None?
    ensures r == Fail(PurchaseRecordsMissing) <==>
      data.Some? && data.value.sellers.Some? && data.value.products.Some? && data.value.purchaseRecords.None?
    ensures r == Fail(OptionsNotObject) <==>
      data.Some? && data.value.sellers.Some? && data.value.products.Some? && data.value.purchaseRecords.Some?
      && options.None?
    ensures r == Fail(CalculateRevenueNotFunction) <==>
      data.Some? && data.value.sellers.Some? && data.value.products.Some? && data.value.purchaseRecords.Some?
      && options.Some? && options.value.calculateRevenue.None?
    ensures r == Fail(CalculateBonusNotFunction) <==>
      data.Some? && data.value.sellers.Some? && data.value.products.Some? && data.value.purchaseRecords.Some?
      && options.Some? && options.value.calculateRevenue.Some? && options.value.calculateBonus.None?
  {
    if data.None? then Fail(DataNotObject)
    else if data.value.sellers.None? then Fail(SellersMissing)
    else if data.value.products.None? then Fail(ProductsMissing)
    else if data.value.purchaseRecords.None? then Fail(PurchaseRecordsMissing)
    else if options.None? then Fail(OptionsNotObject)
    else if options.value.calculateRevenue.None? then Fail(CalculateRevenueNotFunction)
    else if options.value.calculateBonus.None? then Fail(CalculateBonusNotFunction)
    else Pass
  }

  // ---------------------------------------------------------------- the report as a function

  /** The accumulators after the aggregation pass. */
  function FinalStats(sellers: seq<Seller>, products: seq<Product>, records: seq<PurchaseRecord>)
    : map<string, SellerAcc>
  {
    ApplyRecords(InitialStats(sellers), records, ProductIndex(products))
  }

  /** The accumulators in key order, sorted by profit descending. */
  function Ranked(sellers: seq<Seller>, products: seq<Product>, records: seq<PurchaseRecord>): (sorted: seq<SellerAcc>)
    ensures |sorted| == |SellerOrder(sellers)|
    ensures forall i, j :: 0 <= i < j < |sorted| ==> sorted[i].profit >= sorted[j].profit
  {
    var stats := FinalStats(sellers, products, records);
    var order := SellerOrder(sellers);
    assert forall k :: 0 <= k < |order| ==> order[k] in stats;
    var sorted := SortDesc(ValuesInOrder(stats, order), ProfitOf);
    assert forall i, j :: 0 <= i < j < |sorted| ==> ProfitOf(sorted[i]) >= ProfitOf(sorted[j]);
    sorted
  }

  /** The rows emitted for the sorted accumulators: row `i` carries `calculateBonus(i, total, seller)`. */
  function Rows(sorted: seq<SellerAcc>, calculateBonus: BonusPolicy): (rows: seq<ReportRow>)
    ensures |rows| == |sorted|
    ensures forall i :: 0 <= i < |sorted| ==>
      && rows[i].sellerId == sorted[i].sellerId && rows[i].name == sorted[i].name
      && rows[i].revenue == sorted[i].revenue && rows[i].profit == sorted[i].profit
      && rows[i].salesCount == sorted[i].salesCount
      && rows[i].topProducts == TopProducts(sorted[i].productsSold)
      && rows[i].bonus == calculateBonus(i, |sorted|, sorted[i])
  {
    var rows := seq(|sorted|, i requires 0 <= i < |sorted| =>
      ToRow(RankedSeller(sorted[i], calculateBonus(i, |sorted|, sorted[i]), TopProducts(sorted[i].productsSold))));
    forall i | 0 <= i < |sorted|
      ensures rows[i] == ToRow(RankedSeller(sorted[i], calculateBonus(i, |sorted|, sorted[i]),
                                            TopProducts(sorted[i].productsSold)))
    {
    }
    rows
  }

  /** The rows `analyzeSalesData` returns for well-formed arguments. */
  function Report(sellers: seq<Seller>, products: seq<Product>, records: seq<PurchaseRecord>,
                  calculateBonus: BonusPolicy): (rows: seq<ReportRow>)
    ensures |rows| == |SellerOrder(sellers)|
    ensures forall i, j :: 0 <= i < j < |rows| ==> rows[i].profit >= rows[j].profit
  {
    Rows(Ranked(sellers, products, records), calculateBonus)
  }

  // ---------------------------------------------------------------- the pipeline

  /**
   * `analyzeSalesData(data, options)`: throws (returns `Failure`) on the
   * first failing argument check, before any accumulator exists; otherwise
   * returns the report rows.
   */
  method AnalyzeSalesData(data: Option<SalesData>, options: Option<Options>)
    returns (result: Result<seq<ReportRow>, ValidationError>)
    ensures Validate(data, options).Fail? ==> result == Failure(Validate(data, options).error)
    ensures Validate(data, options).Pass? ==>
      result == Success(Report(data.value.sellers.value, data.value.products.value,
                               data.value.purchaseRecords.value, options.value.calculateBonus.value))
  {
    if data.None? {
      return Failure(DataNotObject);
    }
    if data.value.sellers.None? {
      return Failure(SellersMissing);
    }
    if data.value.products.None? {
      return Failure(ProductsMissing);
    }
    if data.value.purchaseRecords.None? {
      return Failure(PurchaseRecordsMissing);
    }
    if options.None? {
      return Failure(OptionsNotObject);
    }
    if options.value.calculateRevenue.None? {
      return Failure(CalculateRevenueNotFunction);
    }
    if options.value.calculateBonus.None? {
      return Failure(CalculateBonusNotFunction);
    }
    var rows := BuildReport(data.value.sellers.value, data.value.products.value,
                            data.value.purchaseRecords.value, options.value.calculateBonus.value);
    return Success(rows);
  }

  /**
   * The body of `analyzeSalesData` after its checks: build the accumulators
   * and the sku index, walk the records, sort by profit, hand out bonuses
   * and top products, and emit the rows.
   */
  method BuildReport(sellers: seq<Seller>, products: seq<Product>, records: seq<PurchaseRecord>,
                     calculateBonus: BonusPolicy) returns (rows: seq<ReportRow>)
    ensures rows == Report(sellers, products, records, calculateBonus)
  {
    var stats, order := InitStats(sellers);
    var index := ProductIndex(products);
    stats := AggregateRecords(stats, records, index);
    assert stats == FinalStats(sellers, products, records) && order == SellerOrder(sellers);
    var sorted := SortDesc(ValuesInOrder(stats, order), ProfitOf);
    rows := EmitRows(sorted, calculateBonus);
  }

  /** The `forEach` that hands out bonuses and top products, then the `map` to output rows. */
  method EmitRows(sorted: seq<SellerAcc>, calculateBonus: BonusPolicy) returns (rows: seq<ReportRow>)
    ensures rows == Rows(sorted, calculateBonus)
  {
    var ranked := RankSellers(sorted, calculateBonus);
    rows := seq(|ranked|, i requires 0 <= i < |ranked| => ToRow(ranked[i]));
    forall i | 0 <= i < |rows| ensures rows[i] == Rows(sorted, calculateBonus)[i] {
      assert rows[i] == ToRow(ranked[i]);
    }
  }
}
