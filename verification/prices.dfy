/** The domain record `Price` and the key under which prices are looked up,
    cached and invalidated. */
module Prices {
  import opened Values

  /** The domain price: every component is a nullable reference in the source. */
  datatype Price = Price(
    brandId: Option<Int64>,
    startDate: Option<Timestamp>,
    endDate: Option<Timestamp>,
    priceList: Option<Int32>,
    productId: Option<Int64>,
    priority: Option<Int32>,
    price: Option<Decimal>,
    currency: Option<string>)

  /** The triple `{#date, #productId, #brandId}` that is both the query
      parameters and the cache key; equality is exact on all three. */
  datatype Key = Key(date: Option<Timestamp>, productId: Option<Int64>, brandId: Option<Int64>)
}
