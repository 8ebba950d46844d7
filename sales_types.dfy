/**
 * The entities of the sales report: the three input collections, the
 * caller's options, the per-seller accumulator and the report row.
 * Money is exact `real`; item quantities are `int`.
 */
module SalesTypes {
  import opened Wrappers

  /** A seller of the input `sellers` array. */
  datatype Seller = Seller(id: string, firstName: string, lastName: string)

  /** A catalog entry; only the fields the report reads are kept. */
  datatype Product = Product(sku: string, purchasePrice: real)

  /** One line of a purchase; `discount` is a percentage. */
  datatype Item = Item(sku: string, quantity: int, salePrice: real, discount: real)

  /** One receipt; `totalAmount` is `None` when the field is absent or falsy. */
  datatype PurchaseRecord = PurchaseRecord(sellerId: string, totalAmount: Option<real>, items: seq<Item>)

  /** A `{sku, quantity}` pair: an entry of `products_sold` and of `top_products`. */
  datatype ProductCount = ProductCount(sku: string, quantity: int)

  /**
   * The per-seller accumulator built for every seller id and updated while
   * the purchase records are walked. `productsSold` keeps its skus in the
   * order they were first sold.
   */
  datatype SellerAcc = SellerAcc(
    sellerId: string,
    name: string,
    revenue: real,
    profit: real,
    salesCount: nat,
    productsSold: seq<ProductCount>)

  /** A seller after ranking: its accumulator, its bonus and its top products. */
  datatype RankedSeller = RankedSeller(acc: SellerAcc, bonus: real, topProducts: seq<ProductCount>)

  /** One row of the emitted report (amounts unrounded). */
  datatype ReportRow = ReportRow(
    sellerId: string,
    name: string,
    revenue: real,
    profit: real,
    salesCount: nat,
    topProducts: seq<ProductCount>,
    bonus: real)

  /** The injected revenue policy `calculateRevenue(purchase, product)`. */
  type RevenuePolicy = (PurchaseRecord, Product) -> real

  /** The injected bonus policy `calculateBonus(index, total, seller)`. */
  type BonusPolicy = (int, int, SellerAcc) -> real

  /**
   * The `data` argument: each collection is `None` when it is missing or
   * is not an array.
   */
  datatype SalesData = SalesData(
    sellers: Option<seq<Seller>>,
    products: Option<seq<Product>>,
    purchaseRecords: Option<seq<PurchaseRecord>>)

  /** The `options` argument: each policy is `None` when it is not a function. */
  datatype Options = Options(
    calculateRevenue: Option<RevenuePolicy>,
    calculateBonus: Option<BonusPolicy>)

  /** The reasons `analyzeSalesData` throws, one per check. */
  datatype ValidationError =
    | DataNotObject
    | SellersMissing
    | ProductsMissing
    | PurchaseRecordsMissing
    | OptionsNotObject
    | CalculateRevenueNotFunction
    | CalculateBonusNotFunction
}
