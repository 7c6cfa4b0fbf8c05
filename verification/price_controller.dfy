/** `PriceController.getPrice` (GET /v1/prices): binding of the three request
    parameters, their validation, and the call of the use case. */
module PriceController {
  import opened Values
  import opened Prices
  import opened Exceptions
  import opened Runtime
  import opened PriceResponses

  /** A request parameter as the query string carries it: absent, present but
      not convertible (a date off the `yyyy-MM-dd-HH.mm.ss` pattern, a
      non-number, a number beyond `Long`), or converted. `Absent` also covers
      a present but empty value such as `?productId=`: Spring converts the
      empty string to null and reports the parameter as missing, not as a
      type mismatch. The conversion itself is not modelled. */
  datatype Param<+T> = Absent | Malformed | Given(value: T)

  datatype Request = Request(date: Param<Timestamp>, productId: Param<Int64>, brandId: Param<Int64>)

  /** The bound and validated arguments of the handler method. */
  datatype Arguments = Arguments(date: Timestamp, productId: Int64, brandId: Int64)

  /** The `PriceUseCase` port. */
  type UseCase = (State, Option<Timestamp>, Option<Int64>, Option<Int64>) -> Step<Price>

  /** Binding of one required `@RequestParam`. */
  function BindParam<T>(name: string, p: Param<T>): (r: Result<T>)
    ensures p.Given? <==> r.Ok?
    ensures p.Given? ==> r.value == p.value
    ensures p.Absent? ==> r == Err(MissingParameter(name))
    ensures p.Malformed? ==> r == Err(TypeMismatch(name))
  {
    match p
    case Absent => Err(MissingParameter(name))
    case Malformed => Err(TypeMismatch(name))
    case Given(v) => Ok(v)
  }

  /** `s` joined with `", "` between elements. */
  function Join(s: seq<string>): string {
    if |s| == 0 then "" else if |s| == 1 then s[0] else s[0] + ", " + Join(s[1..])
  }

  /** The `@Positive` violations, each as `<property path>: <message>`, in
      parameter order. */
  function Violations(productId: Int64, brandId: Int64): (v: seq<string>)
    ensures |v| == 0 <==> productId > 0 && brandId > 0
    ensures productId <= 0 ==> "getPrice.productId: Product ID must be positive" in v
    ensures brandId <= 0 ==> "getPrice.brandId: Brand ID must be positive" in v
    ensures productId > 0 ==> "getPrice.productId: Product ID must be positive" !in v
    ensures brandId > 0 ==> "getPrice.brandId: Brand ID must be positive" !in v
    ensures |v| == (if productId <= 0 then 1 else 0) + (if brandId <= 0 then 1 else 0)
    ensures forall m :: m in v ==>
              m == "getPrice.productId: Product ID must be positive" || m == "getPrice.brandId: Brand ID must be positive"
  {
    (if productId <= 0 then ["getPrice.productId: Product ID must be positive"] else [])
    + (if brandId <= 0 then ["getPrice.brandId: Brand ID must be positive"] else [])
  }

  /** Argument resolution, in declaration order, then method validation. The
      first parameter that is missing or malformed stops resolution; the
      `@NotNull` checks can never fail after a required parameter is bound. */
  function BindArguments(req: Request): (r: Result<Arguments>)
    ensures r.Ok? <==>
              && req.date.Given? && req.productId.Given? && req.brandId.Given?
              && req.productId.value > 0 && req.brandId.value > 0
    ensures r.Ok? ==> r.value == Arguments(req.date.value, req.productId.value, req.brandId.value)
    // the first unbound parameter, in declaration order, decides the error
    ensures req.date.Absent? ==> r == Err(MissingParameter("date"))
    ensures req.date.Malformed? ==> r == Err(TypeMismatch("date"))
    ensures req.date.Given? && req.productId.Absent? ==> r == Err(MissingParameter("productId"))
    ensures req.date.Given? && req.productId.Malformed? ==> r == Err(TypeMismatch("productId"))
    ensures req.date.Given? && req.productId.Given? && req.brandId.Absent? ==>
              r == Err(MissingParameter("brandId"))
    ensures req.date.Given? && req.productId.Given? && req.brandId.Malformed? ==>
              r == Err(TypeMismatch("brandId"))
    // all three bound: only the positivity checks remain
    ensures req.date.Given? && req.productId.Given? && req.brandId.Given? && r.Err? ==>
              r.error == ConstraintViolation(Some(Join(Violations(req.productId.value, req.brandId.value))))
  {
    var date := BindParam("date", req.date);
    if date.Err? then Err(date.error)
    else
      var productId := BindParam("productId", req.productId);
      if productId.Err? then Err(productId.error)
      else
        var brandId := BindParam("brandId", req.brandId);
        if brandId.Err? then Err(brandId.error)
        else
          var violations := Violations(productId.value, brandId.value);
          if |violations| > 0 then Err(ConstraintViolation(Some(Join(violations))))
          else Ok(Arguments(date.value, productId.value, brandId.value))
  }

  /** The handler method: on bound arguments, one use-case call with them and
      a body built by `FromDomain` from its price; a binding failure or an
      exception of the use case propagates (to the exception handler). */
  function GetPrice(useCase: UseCase, s: State, req: Request): (r: Step<Option<PriceResponse>>)
    ensures BindArguments(req).Err? ==> r == Step(Err(BindArguments(req).error), s)
    ensures BindArguments(req).Ok? ==>
              var a := BindArguments(req).value;
              var call := useCase(s, Some(a.date), Some(a.productId), Some(a.brandId));
              && r.state == call.state
              && (call.result.Ok? ==> r.result == Ok(FromDomain(Some(call.result.value))))
              && (call.result.Err? ==> r.result == Err(call.result.error))
  {
    var args := BindArguments(req);
    if args.Err? then Step(Err(args.error), s)
    else
      var a := args.value;
      var call := useCase(s, Some(a.date), Some(a.productId), Some(a.brandId));
      if call.result.Ok? then Step(Ok(FromDomain(Some(call.result.value))), call.state)
      else Step(Err(call.result.error), call.state)
  }

  /** A rejected request never reaches the use case: the outcome is the same
      whatever use case the controller is wired to. */
  lemma RejectedRequestNeverReachesUseCase(useCase1: UseCase, useCase2: UseCase, s: State, req: Request)
    requires BindArguments(req).Err?
    ensures GetPrice(useCase1, s, req) == GetPrice(useCase2, s, req)
  {
  }

  /** A non-positive id is rejected even when everything else is fine. */
  lemma NonPositiveIdRejected(req: Request)
    requires req.date.Given? && req.productId.Given? && req.brandId.Given?
    requires req.productId.value <= 0 || req.brandId.value <= 0
    ensures BindArguments(req).Err? && BindArguments(req).error.ConstraintViolation?
  {
  }
}
