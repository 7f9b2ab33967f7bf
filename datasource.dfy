/**
 * The cache-first data source, seen from its callers. Whether a call is
 * answered from the cache or from the upstream service is decided inside the
 * data source; here that decision is an oracle `answer` that may depend on
 * every request made before, so hits, misses and expiry are all covered
 * without being modelled. The data source keeps the log of requests it got.
 */
module CacheFirst {
  import opened Wrappers
  import opened JsonValue

  /** The third argument of `get`: absent, or `{ params: {...} }` with possibly undefined values. */
  datatype RequestOptions = NoOptions | QueryParams(params: map<string, Option<bool>>)

  datatype Request = Request(cacheKey: string, url: string, options: RequestOptions)

  /** A failed upstream call (network, status, timeout); its detail is opaque. */
  datatype FetchError = FetchError(reason: string)

  class CacheFirstDataSource {
    const answer: (seq<Request>, Request) -> Result<Json, FetchError>
    var requests: seq<Request>

    constructor (answer: (seq<Request>, Request) -> Result<Json, FetchError>)
      ensures this.answer == answer && requests == []
    {
      this.answer := answer;
      requests := [];
    }

    method Get(cacheKey: string, url: string, options: RequestOptions) returns (r: Result<Json, FetchError>)
      modifies this
      ensures requests == old(requests) + [Request(cacheKey, url, options)]
      ensures r == answer(old(requests), Request(cacheKey, url, options))
    {
      r := answer(requests, Request(cacheKey, url, options));
      requests := requests + [Request(cacheKey, url, options)];
    }
  }
}
