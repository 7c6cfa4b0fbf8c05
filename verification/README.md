# prices-api — a Dafny model of the price lookup pipeline

The service answers `GET /v1/prices?date=…&productId=…&brandId=…` with the
price rule that applies to a product of a brand at an instant: among the rows
of the PRICES table for that product and brand whose window
`[startDate, endDate]` contains the instant (both ends inclusive), the one of
highest priority. The lookup goes through a cache-aside layer keyed by
`(date, productId, brandId)` and a circuit breaker whose fallback keeps a
"not found" apart from technical failures. A Kafka listener evicts the cached
entry named by a price-update event. Every step reports metrics under the
endpoint `price_detail`, and a REST exception handler turns every exception
into an error response and one metric.

The model is functional. The cache, the metric log and the trace of store
queries form one immutable `Runtime.State` threaded through every call. The
database is a `Store`: either its rows or a technical failure. Whether the
circuit is open is a boolean input. Outcomes are `Result`s whose errors are
the Java exception classes the handlers tell apart.

| module (file) | models |
|---|---|
| `Values` (values.dfy) | nullable references, `Long`/`Integer` ranges, `LocalDateTime`, `BigDecimal` |
| `Exceptions` (exceptions.dfy) | the exception classes that reach the handlers; `Result` |
| `Monitoring` (monitoring.dfy) | `MetricsType`, `MetricsEndpoint`, the recorder as an append-only log |
| `Prices` (prices.dfy) | the domain `Price` and the lookup/cache key |
| `Runtime` (runtime.dfy) | the threaded state: cache, metric log, store queries |
| `PriceEntities` (price_entity.dfy) | `PriceEntity` and `toDomain` |
| `PriceQuery` (price_query.dfy) | the JPQL query `findTopPrice` |
| `PriceRepositoryAdapter` (price_repository_adapter.dfy) | `getPrice` with breaker and cache, `handleGetPriceFailure`, `invalidatePrice` |
| `PriceService` (price_service.dfy) | the use case `getPrice` |
| `PriceResponses` (price_response.dfy) | `PriceResponse`, `fromDomain`, the JSON name of `curr` |
| `RestExceptionHandler` (rest_exception_handler.dfy) | the six handlers, `buildResponse`, `ErrorMessage`, `ErrorResponse` |
| `PriceController` (price_controller.dfy) | parameter binding, validation and the use-case call |
| `PriceUpdateConsumer` (price_update_consumer.dfy) | `PriceUpdateMessage` and `handlePriceUpdate` |
| `Pipeline` (pipeline.dfy) | the wired application for one request, through the exception handler |

Modelling decisions:

- **Aspect order.** The circuit-breaker aspect runs outside the caching
  aspect, because its default order takes precedence over the one of
  `@EnableCaching`. So an open circuit fails a lookup even when the key is
  cached. Every exception of the cached call, a NotFound included, reaches
  the fallback.
- **SQL NULLs.** A comparison with NULL is never true. A row or a parameter
  with a null product, brand or date never matches.
- **NULL priorities.** The query's database decides where NULL priorities
  sort. The model sorts them after every non-null priority, as H2 does by
  default.
- **Ties.** The query has no secondary order, so the source does not fix
  which of several top-priority rows is returned. The model returns the
  earliest one in table order. `TopPriorityDetermined` and
  `OrderIrrelevantToPriority` show that the returned priority is the same
  whichever row is picked.
- **Constraint-violation message.** Each violation reads
  `getPrice.<param>: <message>`, and violations are joined with `", "` in
  parameter order. The validator builds this message from a set, so the
  source does not fix the order.

Further consequences of the code that the model keeps:

- The circuit breaker runs outside the cache (see aspect order above), so an
  open circuit answers 503 even for a key that is cached.
- Besides its terminal metric, a request may record DATABASE_FETCH and
  FALLBACK. `Pipeline.OneTerminalMetricPerRequest` states it: one terminal
  event, plus at most one of each of those two.
- The query has no tie-break between matching rows of equal priority.
- A null date at the service raises `NullPointerException`, which the
  handler answers with 400. Through the controller, a missing date is
  already a missing required parameter.

## Model

| member | source | states |
|---|---|---|
| `Monitoring.MetricValuesDistinct` | src/main/java/com/inditex/prices/infrastructure/monitoring/MetricsType.java:6-13 | the seven metric kinds have pairwise distinct tag values |
| `PriceEntities.ToDomain` | src/main/java/com/inditex/prices/infrastructure/adapter/out/persistence/entity/PriceEntity.java:49-60 | total; the entity is rebuilt from the result plus its own id, so every field (null ones included) is carried unchanged and only the id is dropped |
| `PriceEntities.ToDomainIgnoresId` | src/main/java/com/inditex/prices/infrastructure/adapter/out/persistence/entity/PriceEntity.java:18-20 | two entities give the same Price exactly when they agree on every field but the id |
| `PriceEntities.ToDomainOfEntityOf` | src/main/java/com/inditex/prices/infrastructure/adapter/out/persistence/entity/PriceEntity.java:49-60 | mapping a row built from a price (any id) gives back that price |
| `PriceQuery.FindTopPrice` | src/main/java/com/inditex/prices/infrastructure/adapter/out/persistence/JpaPriceRepository.java:15-20 | a returned row is in the table, has the requested product and brand, has a window containing the date (both ends inclusive) and ranks at least as high as every matching row; the result is empty exactly when no row matches |
| `PriceQuery.Relevant` | src/main/java/com/inditex/prices/infrastructure/adapter/out/persistence/JpaPriceRepository.java:16-17 | keeps exactly the rows that satisfy the WHERE clause |
| `PriceQuery.IrrelevantRowsIgnored` | src/main/java/com/inditex/prices/infrastructure/adapter/out/persistence/JpaPriceRepository.java:16-17 | rows of other products or brands, or with windows missing the date, do not change the result |
| `PriceQuery.TopPriorityDetermined` | src/main/java/com/inditex/prices/infrastructure/adapter/out/persistence/JpaPriceRepository.java:17 | any row the query could return has the priority of the row returned |
| `PriceQuery.OrderIrrelevantToPriority` | src/main/java/com/inditex/prices/infrastructure/adapter/out/persistence/JpaPriceRepository.java:17 | two tables with the same rows give results of the same priority, or both give none |
| `PriceQuery.HigherPriorityWins` | src/main/java/com/inditex/prices/infrastructure/adapter/out/persistence/JpaPriceRepository.java:17 | of two matching rows with different priorities, the lower one is never returned |
| `PriceQuery.OverlapExample` | src/main/java/com/inditex/prices/infrastructure/adapter/out/persistence/JpaPriceRepository.java:16-17 | for product 35455, brand 1, at 10:00, the priority-2 rule (10:00-12:00, 25.45) beats the priority-1 rule (09:00-11:00); product 99999 finds nothing |
| `PriceRepositoryAdapter.FindTopPriceCall` | src/main/java/com/inditex/prices/infrastructure/adapter/out/persistence/PriceRepositoryAdapter.java:45 | one store query with the key, recorded in the query trace; its result is the query's result, or a technical failure from an unreachable store |
| `PriceRepositoryAdapter.FetchPrice` | src/main/java/com/inditex/prices/infrastructure/adapter/out/persistence/PriceRepositoryAdapter.java:42-47 | on a miss: exactly one DATABASE_FETCH and one query; the mapped top row, or NotFound("Price not found for product") when no row matches, or the store's technical failure; the cache is untouched |
| `PriceRepositoryAdapter.HandleGetPriceFailure` | src/main/java/com/inditex/prices/infrastructure/adapter/out/persistence/PriceRepositoryAdapter.java:59-65 | a NotFound is rethrown unchanged with nothing recorded; any other failure becomes ServiceUnavailable("Service unavailable. Please try again later.") after exactly one FALLBACK; the cache and the store are untouched |
| `PriceRepositoryAdapter.GetPrice` | src/main/java/com/inditex/prices/infrastructure/adapter/out/persistence/PriceRepositoryAdapter.java:39-47 | open circuit: ServiceUnavailable and one FALLBACK, with no cache or store access; hit: the cached price, no query, no metric; miss: exactly one query with the key after one DATABASE_FETCH, then the mapped top row is cached under the key, or NotFound leaves the cache as it was, or a failing store gives ServiceUnavailable after one FALLBACK; failures never populate the cache; the only errors are NotFound and the fallback's ServiceUnavailable |
| `PriceRepositoryAdapter.InvalidatePrice` | src/main/java/com/inditex/prices/infrastructure/adapter/out/persistence/PriceRepositoryAdapter.java:70-74 | records exactly one CACHE_INVALIDATION and never queries the store; removes the key and only the key (a no-op when it is absent), leaving every other entry unchanged; a cache-backend failure propagates and leaves the cache unchanged |
| `PriceRepositoryAdapter.SecondLookupHitsCache` | src/main/java/com/inditex/prices/infrastructure/adapter/out/persistence/PriceRepositoryAdapter.java:41 | with the circuit closed, after a successful lookup the same lookup returns the same price from the cache, with no query and no metric |
| `PriceRepositoryAdapter.InvalidateThenLookupQueriesStore` | src/main/java/com/inditex/prices/infrastructure/adapter/out/persistence/PriceRepositoryAdapter.java:70-71 | eviction uses the lookup's key triple, so with the circuit closed, a lookup right after evicting the same key queries the store |
| `PriceRepositoryAdapter.InvalidateKeepsOtherHits` | src/main/java/com/inditex/prices/infrastructure/adapter/out/persistence/PriceRepositoryAdapter.java:70 | invalidating one key leaves every other cached key served as a hit |
| `PriceService.GetPrice` | src/main/java/com/inditex/prices/application/service/PriceService.java:35-42 | null date: NullPointer("The date must not be null"), state unchanged, no metric; otherwise the outcome of one repository call with the same (date, productId, brandId); SUCCESS is appended exactly when the call returns, and errors propagate unchanged with no metric |
| `PriceService.NullDateNeverReachesRepository` | src/main/java/com/inditex/prices/application/service/PriceService.java:37 | with a null date the outcome does not depend on the repository at all |
| `PriceService.SuccessRecordedIffReturns` | src/main/java/com/inditex/prices/application/service/PriceService.java:38-41 | the service adds one SUCCESS, and no other terminal event, exactly when the call returns normally |
| `PriceResponses.FromDomain` | src/main/java/com/inditex/prices/infrastructure/adapter/in/rest/dto/PriceResponse.java:31-44 | null exactly for null; otherwise a response that describes exactly the given price, with `curr` holding the currency |
| `PriceResponses.FromDomainInjective` | src/main/java/com/inditex/prices/infrastructure/adapter/in/rest/dto/PriceResponse.java:34-43 | distinct prices give distinct responses |
| `PriceResponses.EntityFieldsReachResponse` | src/main/java/com/inditex/prices/infrastructure/adapter/out/persistence/entity/PriceEntity.java:50-58 | `toDomain` followed by `fromDomain` keeps brandId, startDate, endDate, priceList, productId, priority and price, and moves currency to `curr` |
| `PriceResponses.JsonName` | src/main/java/com/inditex/prices/infrastructure/adapter/in/rest/dto/PriceResponse.java:12-24 | `curr` is the one component exposed as "currency" |
| `PriceResponses.JsonNamesDistinct` | src/main/java/com/inditex/prices/infrastructure/adapter/in/rest/dto/PriceResponse.java:12-24 | no two response components share a JSON name |
| `RestExceptionHandler.BuildResponse` | src/main/java/com/inditex/prices/infrastructure/adapter/in/rest/error/RestExceptionHandler.java:71-77 | the entity carries the status; the body's status is its code, its error is its reason phrase, its message is the given one |
| `RestExceptionHandler.HandleGeneralBadRequest` | src/main/java/com/inditex/prices/infrastructure/adapter/in/rest/error/RestExceptionHandler.java:28-34 | 400 with the exception's message, or "Invalid request data" when it is null; one BAD_REQUEST |
| `RestExceptionHandler.HandleTypeMismatch` | src/main/java/com/inditex/prices/infrastructure/adapter/in/rest/error/RestExceptionHandler.java:36-41 | 400 "Parameter '<name>' has an invalid value"; one BAD_REQUEST |
| `RestExceptionHandler.HandleMissingParam` | src/main/java/com/inditex/prices/infrastructure/adapter/in/rest/error/RestExceptionHandler.java:43-48 | 400 "Required parameter is missing: <name>"; one BAD_REQUEST |
| `RestExceptionHandler.HandleNotFound` | src/main/java/com/inditex/prices/infrastructure/adapter/in/rest/error/RestExceptionHandler.java:50-55 | 404 "Price not found" whatever the exception's message; one NOT_FOUND |
| `RestExceptionHandler.HandleServiceUnavailable` | src/main/java/com/inditex/prices/infrastructure/adapter/in/rest/error/RestExceptionHandler.java:57-62 | 503 with the exception's own message; one ERROR |
| `RestExceptionHandler.HandleGeneric` | src/main/java/com/inditex/prices/infrastructure/adapter/in/rest/error/RestExceptionHandler.java:64-69 | 500 "Internal error"; one ERROR |
| `RestExceptionHandler.Handle` | src/main/java/com/inditex/prices/infrastructure/adapter/in/rest/error/RestExceptionHandler.java:28-69 | total over exception kinds; the body agrees with the status; 400 exactly for the five request-error kinds (the general ones with the exception's message or "Invalid request data", a type mismatch with "Parameter '<name>' has an invalid value", a missing parameter with "Required parameter is missing: <name>"), 404 with "Price not found" exactly for NotFound, 503 exactly for ServiceUnavailable, 500 otherwise; the metric is BAD_REQUEST, NOT_FOUND or ERROR, matching the status |
| `PriceController.BindParam` | src/main/java/com/inditex/prices/infrastructure/adapter/in/rest/PriceController.java:42-51 | a required parameter binds to its converted value; an absent one is a missing parameter and an unconvertible one a type mismatch, both named |
| `PriceController.Violations` | src/main/java/com/inditex/prices/infrastructure/adapter/in/rest/PriceController.java:46-51 | no violation exactly when both ids are positive; each non-positive id contributes its "must be positive" message exactly once, a positive id contributes none, and nothing else is listed |
| `PriceController.BindArguments` | src/main/java/com/inditex/prices/infrastructure/adapter/in/rest/PriceController.java:42-51 | succeeds exactly when all three parameters are present and convertible and both ids are positive; otherwise the first unbound parameter in declaration order decides the error, else a constraint violation listing the failed checks |
| `PriceController.GetPrice` | src/main/java/com/inditex/prices/infrastructure/adapter/in/rest/PriceController.java:52-53 | a rejected request leaves the state unchanged and throws its binding error; a valid one calls the use case once with the bound values, and the body is `fromDomain` of its price, or its exception propagates |
| `PriceController.RejectedRequestNeverReachesUseCase` | src/main/java/com/inditex/prices/infrastructure/adapter/in/rest/PriceController.java:42-53 | for a rejected request the outcome does not depend on the use case |
| `PriceController.NonPositiveIdRejected` | src/main/java/com/inditex/prices/infrastructure/adapter/in/rest/PriceController.java:48-51 | productId <= 0 or brandId <= 0 is rejected by a constraint violation |
| `PriceUpdateConsumer.HandlePriceUpdate` | src/main/java/com/inditex/prices/infrastructure/adapter/in/kafka/PriceUpdateConsumer.java:23-26 | evicts exactly the key (date, productId, brandId) of the message, taken from its fields in the key's order, with one CACHE_INVALIDATION; no store query; every other entry is kept; a backend failure propagates unchanged |
| `PriceUpdateConsumer.EventForcesRefetch` | src/main/java/com/inditex/prices/infrastructure/adapter/in/kafka/PriceUpdateConsumer.java:25 | after an event, the next lookup of its key with a closed circuit queries the store |
| `Pipeline.Serve` | src/main/java/com/inditex/prices/infrastructure/adapter/in/rest/PriceController.java:42-54 | 200 with the controller's body exactly when the controller returns; otherwise the selected handler's response, with its metric recorded |
| `Pipeline.ApplicationStep` | src/main/java/com/inditex/prices/application/service/PriceService.java:38-41 | the wired use case gives the adapter's outcome, with SUCCESS appended when it returns |
| `Pipeline.RequestTraceCounts` | src/main/java/com/inditex/prices/infrastructure/adapter/in/rest/error/RestExceptionHandler.java:28-69 | each metric sequence a request can add ends in its only terminal event, with at most one DATABASE_FETCH and one FALLBACK |
| `Pipeline.ServeTrace` | src/main/java/com/inditex/prices/infrastructure/adapter/in/rest/error/RestExceptionHandler.java:28-69 | the events a request adds are one of six sequences, and the last one matches the response status |
| `Pipeline.OneTerminalMetricPerRequest` | src/main/java/com/inditex/prices/infrastructure/adapter/in/rest/error/RestExceptionHandler.java:28-69 | together with PriceService.java:35-42: every request keeps the earlier log and adds exactly one terminal event (SUCCESS, BAD_REQUEST, NOT_FOUND, ERROR) as its last, matching 200/400/404/5xx, plus at most one DATABASE_FETCH, at most one FALLBACK and no CACHE_INVALIDATION, every event under endpoint "price_detail" |
| `Pipeline.ServesTopPrice` | src/main/java/com/inditex/prices/infrastructure/adapter/out/persistence/PriceRepositoryAdapter.java:39-47 | with a valid request and a closed circuit: a cached key is answered from the cache without a query; on a miss with a reachable store, 200 with the top matching row, or 404 with the cache unchanged |
| `Pipeline.FailureIsServiceUnavailable` | src/main/java/com/inditex/prices/infrastructure/adapter/out/persistence/PriceRepositoryAdapter.java:59-64 | for a valid request, an open circuit or a miss against a failing store gives 503 with the fallback's message and leaves the cache unchanged |

## Left out

- Circuit-breaker internals (rolling failure window, thresholds, OPEN/HALF_OPEN timing): they live in resilience4j with configuration that is not part of this model. Only "the circuit is open" is modelled, as an input.
- Cache TTL expiry, the Redis and in-memory cache managers and value serialisation (`CacheConfig.java`, `LocalCacheConfig.java`): wall-clock and library configuration. Cache backend errors are modelled on eviction only, not on lookup or population.
- Concurrency between lookups and invalidations: the source gives no ordering, so operations are sequential.
- Kafka transport, deserialisation and configuration (`KafkaSerializationConfig.java`, `KafkaConfig.java`, `LocalKafkaConfig.java`, `KafkaProperties.java`) and `KafkaTestController.java`: I/O plumbing.
- The Micrometer recorder and logging: metrics are an append-only event log, and log lines are not modelled.
- Parsing `yyyy-MM-dd-HH.mm.ss` and JSON date formatting: whether a parameter converts is an input (`Param`).
- The integration-test expectations: they depend on a data script that is not part of this model.
