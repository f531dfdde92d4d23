/**
 * The request descriptor handed to Laravel's HTTP client: what `Http::retry`
 * and `withBasicAuth` configure, and what the verb call (`get`, `post`,
 * `patch`) adds. The transport itself is not modelled.
 */
module Http {
  import opened Wrappers

  datatype Method = GET | POST | PATCH

  /** No body (a `get($url)` call) or the array given to `post`/`patch`. */
  datatype Body = NoBody | Fields(fields: map<string, string>)

  /**
   * Whether `withBasicAuth` was called, and with what. A `None` component
   * is a PHP `null` passed on unchanged.
   */
  datatype Authorization = NoAuth | BasicAuth(username: Option<string>, password: Option<string>)

  /** A configured client before the verb call: authorisation and the `retry($times, $sleep)` arguments. */
  datatype PendingRequest = PendingRequest(auth: Authorization, retryTimes: nat, retryDelay: Option<nat>)

  /** `retryDelay` is `None` when `retry` was called without a delay argument. */
  datatype Request = Request(
    verb: Method,
    url: string,
    body: Body,
    auth: Authorization,
    retryTimes: nat,
    retryDelay: Option<nat>)

  /** The verb call on a configured client. */
  function Send(pending: PendingRequest, verb: Method, url: string, body: Body): Request
  {
    Request(verb, url, body, pending.auth, pending.retryTimes, pending.retryDelay)
  }
}
