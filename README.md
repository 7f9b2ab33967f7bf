# TransactionApi: a verified model of the typed transaction-service accessor

This project models `TransactionApi`, the accessor the Safe client gateway
uses to read balances and chain metadata ("backbone") from the upstream
transaction service. The accessor is built from a chain id, a base URL, a
cache-first data source, a validation-error factory and a JSON-schema
service. At construction it registers the token sub-schema under
`balanceToken`, then compiles the balance schema and the backbone schema.
Each accessor call builds a cache key and a URL from the accessor's chain id and
base URL and, for `getBalances`, the call's arguments, fetches
the raw payload through the data source and checks it with a compiled
validator. It then returns the payload unchanged or throws an error the
factory builds from the validator's recorded errors.

Modules, leaf first:

- `Wrappers`: `Option` (JavaScript `undefined`) and `Result` (return or throw).
- `JsonValue`: untyped JSON payloads.
- `JsonSchema`: the schema collaborator. A `Schema` carries what it accepts and
  what it reports as uninterpreted function values. `Validator` is a compiled
  validator whose mutable `errors` field every call overwrites, as ajv's
  `ValidateFunction.errors` is. `JsonSchemaService` is a registry of schema names
  with a log of `addSchema` and `compile` events; compiling fails when a
  reference is not registered.
- `CacheFirst`: the data source as its callers see it. Its answer is an oracle
  over the whole history of requests, so cache hits, misses and expiry are all
  allowed without being modelled. It keeps a log of the requests it received.
- `Delimited`: splitting and joining on a delimiter, with the round-trip
  lemmas the cache-key proofs use.
- `Keys`: the cache keys and URLs (template strings) and parsers that invert them.
- `TransactionApiService`: the accessor's errors, the specification functions of
  both calls, and the `TransactionApi` class.

Optional booleans are `Option<bool>`; inside a template literal they render
as `"true"`, `"false"` or `"undefined"`. A `getBalances` payload that is not
an array has no `every` method, so the call throws a `TypeError`; the model
reports this as `NotIterable`.

A failed `getBalances` reports only the violations of the first rejected
element, not those of every invalid element: `every` stops there and the
validator's `errors` reflect only its last call.

## Model

| member | source | states |
|---|---|---|
| Keys.ShowFlag | src/datasources/transaction-api/transaction-api.service.ts:40 | an optional flag renders as a dash-free segment from which the flag (absent, true or false) is read back, so absent stays distinct from false |
| Keys.BalancesCacheKey | src/datasources/transaction-api/transaction-api.service.ts:40 | the balances key splits at '-' into the tag "balances", the chain id's segments, the Safe address's segments and the two rendered flags, in that order |
| Keys.BalancesCacheKeyRoundTrip | src/datasources/transaction-api/transaction-api.service.ts:40 | with a dash-free chain id the balances key determines chain id, Safe address (which may contain dashes) and both flags |
| Keys.BalancesCacheKeyInjective | src/datasources/transaction-api/transaction-api.service.ts:40 | for dash-free chain ids two balances keys are equal if and only if all four arguments are equal |
| Keys.BalancesCacheKeyCollision | src/datasources/transaction-api/transaction-api.service.ts:40 | a chain id containing '-' lets two different requests share one key, so the dash-free condition is needed |
| Keys.BalancesUrl | src/datasources/transaction-api/transaction-api.service.ts:41 | the balances URL under a base URL gives the Safe address back, whatever characters it holds; the filters are not among its inputs |
| Keys.BackboneCacheKey | src/datasources/transaction-api/transaction-api.service.ts:60 | the backbone key splits at '-' into the tag "backbone" followed by the chain id's segments |
| Keys.BackboneCacheKeyRoundTrip | src/datasources/transaction-api/transaction-api.service.ts:60 | the backbone key determines the chain id, whatever characters the chain id holds |
| Keys.CacheKeysDisjoint | src/datasources/transaction-api/transaction-api.service.ts:40-60 | no backbone key equals any balances key, so the two entities never share a cache entry |
| Keys.BackboneUrl | src/datasources/transaction-api/transaction-api.service.ts:61 | under one base URL the backbone URL is never a balances URL, whatever the Safe address |
| TransactionApiService.BalancesRequest | src/datasources/transaction-api/transaction-api.service.ts:40-47 | the request `getBalances` hands to the data source carries all four arguments: the key gives back chain id, address and both flags (for a dash-free chain id), the URL gives back the address and depends on nothing else, and the flags travel as exactly the two query parameters `trusted` and `excludeSpam` |
| TransactionApiService.BackboneRequest | src/datasources/transaction-api/transaction-api.service.ts:60-62 | the request `getBackbone` hands to the data source has a key that gives back the chain id, a URL that is no balances URL, and no options |
| TransactionApiService.FirstRejected | src/datasources/transaction-api/transaction-api.service.ts:49 | where `every` stops: none exactly when all elements are accepted, otherwise a rejected index with every earlier element accepted |
| TransactionApiService.BalancesOutcome | src/datasources/transaction-api/transaction-api.service.ts:42-55 | a fetch failure propagates; a non-array throws; success exactly when the payload is an array all of whose elements are accepted (the empty array included), and then the payload is returned unchanged; a validation failure carries the violations of a rejected element |
| TransactionApiService.BalancesReportFirstRejected | src/datasources/transaction-api/transaction-api.service.ts:49-52 | the thrown error is built from the violations of the first rejected element, not an aggregate |
| TransactionApiService.ErrorsAfterEvery | src/datasources/transaction-api/transaction-api.service.ts:49-51 | the validator's `errors` once `every` has run: unchanged for an empty array, cleared when every element passed, and the violations of the first rejected element otherwise |
| TransactionApiService.BalancesErrorIsRecordedErrors | src/datasources/transaction-api/transaction-api.service.ts:49-52 | whenever `getBalances` throws over an array, the thrown error carries exactly the errors the validator holds after `every` |
| TransactionApiService.BackboneOutcome | src/datasources/transaction-api/transaction-api.service.ts:62-70 | success exactly when the fetched value is accepted, returning it unchanged; otherwise the factory error over that value's violations, or the fetch failure |
| TransactionApiService.TransactionApi.constructor | src/datasources/transaction-api/transaction-api.service.ts:18-32 | registers `balanceToken` first, then compiles the balance and the backbone schema, once each, in that order; each validator is one for its schema, either new or one the schema service compiled before, and the two are distinct objects when the schema ids differ |
| TransactionApiService.TransactionApi.GetBalances | src/datasources/transaction-api/transaction-api.service.ts:34-56 | makes exactly one request (key from chain id, address and both flags; URL from base URL and address; flags as query parameters), returns `BalancesOutcome` of the answer, and leaves the validator's errors as the `every` loop sets them |
| TransactionApiService.TransactionApi.GetBackbone | src/datasources/transaction-api/transaction-api.service.ts:58-71 | makes exactly one request whose key and URL depend only on constructor state, returns `BackboneOutcome` of the answer, and leaves the validator's errors as its one call sets them |
| JsonSchema.Validator.Validate | src/datasources/transaction-api/transaction-api.service.ts:64-66 | a validator call answers whether the schema accepts the payload and overwrites `errors`: cleared on acceptance, the payload's violations on rejection |
| JsonSchema.JsonSchemaService.AddSchema | src/datasources/transaction-api/transaction-api.service.ts:25 | registering adds the name to the registry and logs the registration |
| JsonSchema.JsonSchemaService.Compile | src/datasources/transaction-api/transaction-api.service.ts:26-31 | compiling succeeds exactly when every referenced schema is registered, yielding a validator for that schema that is either new or one this service compiled before, recording it among its compiled validators, and logs the compilation |
| CacheFirst.CacheFirstDataSource.Get | src/datasources/transaction-api/transaction-api.service.ts:42-47 | a request is logged and answered by the data source's oracle over all earlier requests |

## Left out

- JSON-schema semantics and the contents of the balance, token and backbone schemas: the schema library and the schema files are not part of this model. A schema's acceptance and its reported violations are uninterpreted functions.
- The internals of the cache-first data source (time-to-live, HTTP, single-flight coalescing of concurrent callers): that file is not part of this model, and single-flight is a concurrency concern. The data source is an oracle over its request history.
- Promises and `async`: calls are sequential, and a rejected promise is a `Failure` result.
- The validation-error factory's internals: `from` is modelled as the constructor `ValidationError(errors)`. The factory is therefore not a constructor parameter of the model.
- TransactionApiService.TransactionApi.constructor: it requires that both compiled schemas refer only to registered names or `balanceToken`. In the service, a reference that does not resolve makes `compile` throw at start-up. `Compile` models that failure, but the constructor does not.
- JsonSchema.JsonSchemaService.Compile: the contract allows a validator compiled earlier to be handed back, so accessors over one schema service may share a validator and its `errors`. It says only that the validator is new or one this service handed out before, not when the library reuses one. This sharing is harmless to every call: `every` and the read of `errors` that follows it run without yielding, so no other call can overwrite `errors` in between.
- What `addSchema` does when a name is already registered belongs to the schema service, which is not part of this model; the model just records the name.
- JSON numbers are integers here: nothing in the accessor looks at them.
- Invalidating the cache after a validation failure: the service leaves it as a to-do and does nothing, and so does the model. A failed call makes no further request.
- `src/routes/transactions/transactions.module.ts` is dependency-injection wiring. The transaction mappers, the imitation detector and the queued-items assembler it names are not part of this model, because their code is not available.
- `src/domain/interfaces/email.datasource.interface.ts` and `src/domain/alerts/alerts.repository.interface.ts` are interfaces with no implementation, all input and output.
