/** The persistent row `PriceEntity` (table PRICES) and its mapping to the
    domain `Price`. */
module PriceEntities {
  import opened Values
  import opened Prices

  datatype PriceEntity = PriceEntity(
    id: Option<Int64>,
    brandId: Option<Int64>,
    startDate: Option<Timestamp>,
    endDate: Option<Timestamp>,
    priceList: Option<Int32>,
    productId: Option<Int64>,
    priority: Option<Int32>,
    price: Option<Decimal>,
    currency: Option<string>)

  /** The row that a price and a surrogate id describe: the reference
      against which `ToDomain` is specified. */
  function EntityOf(p: Price, id: Option<Int64>): (e: PriceEntity)
    ensures e.id == id
  {
    PriceEntity(id, p.brandId, p.startDate, p.endDate, p.priceList,
                p.productId, p.priority, p.price, p.currency)
  }

  /** `PriceEntity.toDomain`: total, and it drops the id and nothing else —
      the entity is recovered from the price and its own id, so every field,
      absent ones included, is carried unchanged. */
  function ToDomain(e: PriceEntity): (p: Price)
    ensures EntityOf(p, e.id) == e
  {
    Price(e.brandId, e.startDate, e.endDate, e.priceList,
          e.productId, e.priority, e.price, e.currency)
  }

  /** Two entities map to the same price exactly when they agree on every
      field but the id. */
  lemma ToDomainIgnoresId(e1: PriceEntity, e2: PriceEntity)
    ensures ToDomain(e1) == ToDomain(e2) <==> e1.(id := e2.id) == e2
  {
  }

  /** Building a row from a price and mapping it back yields that price. */
  lemma ToDomainOfEntityOf(p: Price, id: Option<Int64>)
    ensures ToDomain(EntityOf(p, id)) == p
  {
  }
}
