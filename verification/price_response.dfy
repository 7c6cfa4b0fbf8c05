/** The REST body `PriceResponse` and its construction from a domain price. */
module PriceResponses {
  import opened Values
  import opened Prices
  import opened PriceEntities

  datatype PriceResponse = PriceResponse(
    brandId: Option<Int64>,
    startDate: Option<Timestamp>,
    endDate: Option<Timestamp>,
    priceList: Option<Int32>,
    productId: Option<Int64>,
    priority: Option<Int32>,
    price: Option<Decimal>,
    curr: Option<string>)

  /** The domain price a response describes, reading `curr` as the currency:
      the reference against which `FromDomain` is specified. */
  function AsDomain(r: PriceResponse): Price {
    Price(r.brandId, r.startDate, r.endDate, r.priceList, r.productId, r.priority, r.price, r.curr)
  }

  /** `PriceResponse.fromDomain`: null for null; otherwise a response that
      describes exactly the given price. */
  function FromDomain(domain: Option<Price>): (r: Option<PriceResponse>)
    ensures r.None? <==> domain.None?
    ensures r.Some? ==> AsDomain(r.value) == domain.value
  {
    match domain
    case None => None
    case Some(d) =>
      Some(PriceResponse(d.brandId, d.startDate, d.endDate, d.priceList,
                         d.productId, d.priority, d.price, d.currency))
  }

  /** Distinct prices give distinct responses: the mapping loses nothing. */
  lemma FromDomainInjective(p1: Price, p2: Price)
    ensures FromDomain(Some(p1)) == FromDomain(Some(p2)) <==> p1 == p2
  {
    if FromDomain(Some(p1)) == FromDomain(Some(p2)) {
      assert p1 == AsDomain(FromDomain(Some(p1)).value);
    }
  }

  /** A stored row, mapped to the domain and then to a response, keeps every
      field the two share; the currency arrives in `curr`. */
  lemma EntityFieldsReachResponse(e: PriceEntity)
    ensures var r := FromDomain(Some(ToDomain(e)));
            && r.Some?
            && r.value.brandId == e.brandId
            && r.value.startDate == e.startDate
            && r.value.endDate == e.endDate
            && r.value.priceList == e.priceList
            && r.value.productId == e.productId
            && r.value.priority == e.priority
            && r.value.price == e.price
            && r.value.curr == e.currency
  {
  }

  /** The components of a response, as serialised. */
  datatype ResponseField = BrandId | StartDate | EndDate | PriceList | ProductId | Priority | PriceAmount | Curr

  /** The JSON property name of each component: every component is named
      after itself except `curr`, which `@JsonProperty` exposes as "currency". */
  function JsonName(f: ResponseField): (name: string)
    ensures name == "currency" <==> f.Curr?
  {
    match f
    case BrandId => "brandId"
    case StartDate => "startDate"
    case EndDate => "endDate"
    case PriceList => "priceList"
    case ProductId => "productId"
    case Priority => "priority"
    case PriceAmount => "price"
    case Curr => "currency"
  }

  /** No two components share a JSON name. */
  lemma JsonNamesDistinct(f: ResponseField, g: ResponseField)
    ensures JsonName(f) == JsonName(g) <==> f == g
  {
  }
}
