/**
 * The typed accessor over the transaction service: `TransactionApi` fetches
 * balances and chain metadata ("backbone") through the cache-first data
 * source and returns them only when the compiled validators accept them.
 */
module TransactionApiService {
  import opened Wrappers
  import opened JsonValue
  import opened JsonSchema
  import opened CacheFirst
  import opened Keys

  /** The domain error the validation-error factory builds from a validator's errors. */
  datatype ValidationError = ValidationError(errors: seq<SchemaError>)

  /** What an accessor call can throw. */
  datatype ApiError =
    | FetchFailed(cause: FetchError)   // the data source's promise rejected
    | NotIterable                      // the balances payload is not an array, so it has no `every`
    | Invalid(error: ValidationError)  // thrown from the validation-error factory

  /** The request `getBalances` makes: the filters travel as query parameters only. */
  function BalancesRequest(chainId: string, baseUrl: string, safeAddress: string,
                           trusted: Option<bool>, excludeSpam: Option<bool>): (r: Request)
    ensures '-' !in chainId ==>
              ParseBalancesCacheKey(r.cacheKey) == Some(BalancesKey(chainId, safeAddress, trusted, excludeSpam))
    ensures r.url == BalancesUrl(baseUrl, safeAddress)
    ensures SafeAddressOfBalancesUrl(baseUrl, r.url) == Some(safeAddress)
    ensures r.options.QueryParams? && r.options.params.Keys == {"trusted", "excludeSpam"}
    ensures r.options.params["trusted"] == trusted && r.options.params["excludeSpam"] == excludeSpam
  {
    var r := Request(BalancesCacheKey(chainId, safeAddress, trusted, excludeSpam),
                     BalancesUrl(baseUrl, safeAddress),
                     QueryParams(map["trusted" := trusted, "excludeSpam" := excludeSpam]));
    if '-' in chainId then r
    else
      BalancesCacheKeyRoundTrip(chainId, safeAddress, trusted, excludeSpam);
      r
  }

  /** The request `getBackbone` makes: it depends on the accessor's own state only. */
  function BackboneRequest(chainId: string, baseUrl: string): (r: Request)
    ensures ParseBackboneCacheKey(r.cacheKey) == Some(chainId)
    ensures forall safeAddress :: r.url != BalancesUrl(baseUrl, safeAddress)
    ensures r.options == NoOptions
  {
    BackboneCacheKeyRoundTrip(chainId);
    Request(BackboneCacheKey(chainId), BackboneUrl(baseUrl), NoOptions)
  }

  /** The index of the first element `accepts` rejects, where `every` stops. */
  function FirstRejected(items: seq<Json>, accepts: Json -> bool): (r: Option<nat>)
    ensures r.None? <==> forall i :: 0 <= i < |items| ==> accepts(items[i])
    ensures r.Some? ==> r.value < |items| && !accepts(items[r.value])
                        && forall i :: 0 <= i < r.value ==> accepts(items[i])
  {
    if |items| == 0 then None
    else if !accepts(items[0]) then Some(0)
    else
      match FirstRejected(items[1..], accepts)
      case None =>
        assert forall i :: 1 <= i < |items| ==> items[i] == items[1..][i - 1];
        None
      case Some(k) =>
        assert forall i :: 1 <= i <= k + 1 ==> items[i] == items[1..][i - 1];
        Some(k + 1)
  }

  /**
   * What `getBalances` returns or throws for what the data source answered:
   * the payload itself when it is an array whose every element the schema
   * accepts; otherwise the factory error over the first rejected element's
   * violations.
   */
  function BalancesOutcome(fetched: Result<Json, FetchError>, schema: Schema): (r: Result<Json, ApiError>)
    ensures fetched.Failure? ==> r == Failure(FetchFailed(fetched.error))
    ensures fetched.Success? && !fetched.value.JArray? ==> r == Failure(NotIterable)
    ensures r.Success? <==> fetched.Success? && fetched.value.JArray?
                            && forall i :: 0 <= i < |fetched.value.items| ==> schema.accepts(fetched.value.items[i])
    ensures r.Success? ==> r.value == fetched.value
    ensures r.Failure? && r.error.Invalid? ==>
              fetched.Success? && fetched.value.JArray?
              && exists k :: 0 <= k < |fetched.value.items| && !schema.accepts(fetched.value.items[k])
                             && r.error == Invalid(ValidationError(schema.explain(fetched.value.items[k])))
  {
    match fetched
    case Failure(e) => Failure(FetchFailed(e))
    case Success(payload) =>
      if !payload.JArray? then Failure(NotIterable)
      else
        match FirstRejected(payload.items, schema.accepts)
        case None => Success(payload)
        case Some(k) => Failure(Invalid(ValidationError(schema.explain(payload.items[k]))))
  }

  /**
   * When several elements are rejected, the error reports the violations of
   * the first of them only, not an aggregate over all.
   */
  lemma BalancesReportFirstRejected(payload: Json, schema: Schema, k: nat)
    requires payload.JArray? && k < |payload.items|
    requires !schema.accepts(payload.items[k])
    requires forall i :: 0 <= i < k ==> schema.accepts(payload.items[i])
    ensures BalancesOutcome(Success(payload), schema)
         == Failure(Invalid(ValidationError(schema.explain(payload.items[k]))))
  {
  }

  /** What `getBackbone` returns or throws for what the data source answered. */
  function BackboneOutcome(fetched: Result<Json, FetchError>, schema: Schema): (r: Result<Json, ApiError>)
    ensures r.Success? <==> fetched.Success? && schema.accepts(fetched.value)
    ensures r.Success? ==> r.value == fetched.value
    ensures fetched.Failure? ==> r == Failure(FetchFailed(fetched.error))
    ensures fetched.Success? && !schema.accepts(fetched.value) ==>
              r == Failure(Invalid(ValidationError(schema.explain(fetched.value))))
  {
    match fetched
    case Failure(e) => Failure(FetchFailed(e))
    case Success(payload) =>
      if schema.accepts(payload) then Success(payload)
      else Failure(Invalid(ValidationError(schema.explain(payload))))
  }

  /**
   * The validator's `errors` after `every` has run over `items`: untouched
   * when there was nothing to validate, cleared when all passed, the first
   * rejected element's violations otherwise.
   */
  function ErrorsAfterEvery(items: seq<Json>, schema: Schema, before: Option<seq<SchemaError>>): (r: Option<seq<SchemaError>>)
    ensures |items| == 0 ==> r == before
    ensures |items| > 0 && (forall i :: 0 <= i < |items| ==> schema.accepts(items[i])) ==> r == None
    ensures forall k :: 0 <= k < |items| && !schema.accepts(items[k])
                        && (forall i :: 0 <= i < k ==> schema.accepts(items[i]))
                     ==> r == Some(schema.explain(items[k]))
  {
    if |items| == 0 then before
    else
      match FirstRejected(items, schema.accepts)
      case None => None
      case Some(k) => Some(schema.explain(items[k]))
  }

  /**
   * The error `getBalances` throws over an array is built from exactly the
   * errors the validator holds once `every` has stopped.
   */
  lemma BalancesErrorIsRecordedErrors(payload: Json, schema: Schema, before: Option<seq<SchemaError>>)
    requires payload.JArray?
    ensures var r := BalancesOutcome(Success(payload), schema);
            r.Failure? ==> r.error.Invalid? && ErrorsAfterEvery(payload.items, schema, before) == Some(r.error.error.errors)
  {
  }

  class TransactionApi {
    const chainId: string
    const baseUrl: string
    const dataSource: CacheFirstDataSource
    const isValidBalance: Validator
    const isValidBackbone: Validator

    /**
     * Registers the token sub-schema under "balanceToken", then compiles the
     * balance schema and the backbone schema, once each. The schemas are
     * constants of the service, passed in because their contents are not
     * part of this model; they must resolve, or compilation throws at start-up.
     */
    constructor (chainId: string, baseUrl: string, dataSource: CacheFirstDataSource,
                 jsonSchemaService: JsonSchemaService,
                 balanceTokenSchema: Schema, balanceSchema: Schema, backboneSchema: Schema)
      requires balanceSchema.refs <= jsonSchemaService.registered + {"balanceToken"}
      requires backboneSchema.refs <= jsonSchemaService.registered + {"balanceToken"}
      modifies jsonSchemaService
      ensures this.chainId == chainId && this.baseUrl == baseUrl && this.dataSource == dataSource
      ensures jsonSchemaService.registered == old(jsonSchemaService.registered) + {"balanceToken"}
      ensures jsonSchemaService.events == old(jsonSchemaService.events)
                + [Added("balanceToken"), Compiled(balanceSchema.id), Compiled(backboneSchema.id)]
      ensures isValidBalance.schema == balanceSchema && isValidBackbone.schema == backboneSchema
      ensures balanceSchema.id != backboneSchema.id ==> isValidBalance != isValidBackbone
      ensures fresh(isValidBalance) || isValidBalance in old(jsonSchemaService.compiled)
      ensures fresh(isValidBackbone) || isValidBackbone in old(jsonSchemaService.compiled)
      ensures jsonSchemaService.compiled == old(jsonSchemaService.compiled) + {isValidBalance, isValidBackbone}
    {
      this.chainId := chainId;
      this.baseUrl := baseUrl;
      this.dataSource := dataSource;
      jsonSchemaService.AddSchema(balanceTokenSchema, "balanceToken");
      var balance := jsonSchemaService.Compile(balanceSchema);
      var backbone := jsonSchemaService.Compile(backboneSchema);
      isValidBalance := balance.value;
      isValidBackbone := backbone.value;
    }

    /**
     * Fetches the balances of `safeAddress` and returns them only if every
     * element passes the balance validator. Exactly one request reaches the
     * data source, whatever the outcome.
     */
    method GetBalances(safeAddress: string, trusted: Option<bool>, excludeSpam: Option<bool>)
      returns (r: Result<Json, ApiError>)
      modifies dataSource, isValidBalance
      ensures dataSource.requests
           == old(dataSource.requests) + [BalancesRequest(chainId, baseUrl, safeAddress, trusted, excludeSpam)]
      ensures r == BalancesOutcome(
                     dataSource.answer(old(dataSource.requests), BalancesRequest(chainId, baseUrl, safeAddress, trusted, excludeSpam)),
                     isValidBalance.schema)
      ensures var fetched := dataSource.answer(old(dataSource.requests),
                                               BalancesRequest(chainId, baseUrl, safeAddress, trusted, excludeSpam));
              isValidBalance.errors == if fetched.Success? && fetched.value.JArray?
                                       then ErrorsAfterEvery(fetched.value.items, isValidBalance.schema, old(isValidBalance.errors))
                                       else old(isValidBalance.errors)
    {
      var cacheKey := BalancesCacheKey(chainId, safeAddress, trusted, excludeSpam);
      var url := BalancesUrl(baseUrl, safeAddress);
      var fetched := dataSource.Get(cacheKey, url, QueryParams(map["trusted" := trusted, "excludeSpam" := excludeSpam]));
      if fetched.Failure? {
        return Failure(FetchFailed(fetched.error));
      }
      var balances := fetched.value;
      if !balances.JArray? {
        return Failure(NotIterable);
      }
      var items := balances.items;
      var every := true;
      var i := 0;
      while i < |items|
        modifies isValidBalance
        invariant 0 <= i <= |items|
        invariant forall j :: 0 <= j < i ==> isValidBalance.schema.accepts(items[j])
        invariant isValidBalance.errors == if i == 0 then old(isValidBalance.errors) else None
      {
        var ok := isValidBalance.Validate(items[i]);
        if !ok {
          every := false;
          break;
        }
        i := i + 1;
      }
      if !every {
        // `every` stopped at element i, so `.errors` holds that element's violations
        assert FirstRejected(items, isValidBalance.schema.accepts) == Some(i);
        var errors := isValidBalance.errors.value;
        return Failure(Invalid(ValidationError(errors)));
      }
      return Success(balances);
    }

    /** Fetches the chain metadata and returns it only if the backbone validator accepts it. */
    method GetBackbone() returns (r: Result<Json, ApiError>)
      modifies dataSource, isValidBackbone
      ensures dataSource.requests == old(dataSource.requests) + [BackboneRequest(chainId, baseUrl)]
      ensures r == BackboneOutcome(dataSource.answer(old(dataSource.requests), BackboneRequest(chainId, baseUrl)),
                                   isValidBackbone.schema)
      ensures var fetched := dataSource.answer(old(dataSource.requests), BackboneRequest(chainId, baseUrl));
              isValidBackbone.errors == if fetched.Failure? then old(isValidBackbone.errors)
                                        else if isValidBackbone.schema.accepts(fetched.value) then None
                                        else Some(isValidBackbone.schema.explain(fetched.value))
    {
      var cacheKey := BackboneCacheKey(chainId);
      var url := BackboneUrl(baseUrl);
      var fetched := dataSource.Get(cacheKey, url, NoOptions);
      if fetched.Failure? {
        return Failure(FetchFailed(fetched.error));
      }
      var backbone := fetched.value;
      var ok := isValidBackbone.Validate(backbone);
      if !ok {
        var errors := isValidBackbone.errors.value;
        return Failure(Invalid(ValidationError(errors)));
      }
      return Success(backbone);
    }
  }

  /**
   * A client: an accessor built over a fresh schema service owns its
   * validators, so its caller may query it.
   */
  method QueryFreshAccessor(dataSource: CacheFirstDataSource, tokenSchema: Schema, balanceSchema: Schema, backboneSchema: Schema)
    requires balanceSchema.refs <= {"balanceToken"} && backboneSchema.refs <= {"balanceToken"}
    modifies dataSource
  {
    var schemas := new JsonSchemaService();
    var api := new TransactionApi("1", "https://safe-transaction.example", dataSource, schemas,
                                  tokenSchema, balanceSchema, backboneSchema);
    var balances := api.GetBalances("0xA", None, Some(true));
    var backbone := api.GetBackbone();
    assert |dataSource.requests| >= 2;
    assert dataSource.requests[|dataSource.requests| - 1].cacheKey == "backbone-1";
  }
}
