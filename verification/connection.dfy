/** The `Connection` class: throttled, authenticated GET and POST requests. */
module Connection {
  import opened Wrappers
  import opened Json
  import opened Errors
  import opened Http

  const UserAgent := "pylend v0.1.0"
  const MissingKeyMessage := "api_key must be provided and not None."

  /** The constructor: rejects a missing key; the throttle timestamp starts at `datetime.min`. */
  function New(apiKey: Option<string>, requestDelay: int := DefaultRequestDelay): (r: Result<ConnState, Error>)
    ensures r.Err? <==> apiKey.None?
    ensures r.Err? ==> r.error == ValueError(MissingKeyMessage)
    ensures r.Ok? ==> && r.value.apiKey == apiKey.value
                      && r.value.userAgent == UserAgent
                      && r.value.lastRequest == DatetimeMin
                      && r.value.requestDelay == requestDelay
  {
    match apiKey
    case None => Err(ValueError(MissingKeyMessage))
    case Some(key) => Ok(ConnState(key, UserAgent, DatetimeMin, requestDelay))
  }

  /** `get`: a GET request with exactly the three common headers and no body. */
  function Get(
    c: ConnState, checkedAt: nat, response: HttpResponse, answeredAt: nat,
    resource: string, apiVersion: string := DefaultApiVersion, params: QueryParams := None): (x: Exchange)
    ensures x.delay.Ok? ==>
      && x.sent.Some?
      && x.sent.value.verb == Method.Get
      && x.sent.value.uri == BaseUriPrefix + apiVersion + "/" + resource
      && x.sent.value.params == params
      && x.sent.value.body.None?
      && x.sent.value.headers == map["Accept" := "application/json",
                                     "Authorization" := c.apiKey,
                                     "User-Agent" := c.userAgent]
  {
    Request(c, Method.Get, resource, apiVersion, params, None, checkedAt, response, answeredAt)
  }

  /** `post`: as `get`, plus the JSON content type header and the serialised body. */
  function Post(
    c: ConnState, checkedAt: nat, response: HttpResponse, answeredAt: nat,
    resource: string, body: Value, apiVersion: string := DefaultApiVersion, params: QueryParams := None): (x: Exchange)
    ensures x.delay.Ok? ==>
      && x.sent.Some?
      && x.sent.value.verb == Method.Post
      && x.sent.value.uri == BaseUriPrefix + apiVersion + "/" + resource
      && x.sent.value.params == params
      && x.sent.value.body == Some(body)
      && x.sent.value.headers == map["Accept" := "application/json",
                                     "Authorization" := c.apiKey,
                                     "User-Agent" := c.userAgent,
                                     "Content-type" := "application/json"]
  {
    Request(c, Method.Post, resource, apiVersion, params, Some(body), checkedAt, response, answeredAt)
  }

  /**
   * Status classification of a request whose throttle step succeeded, for either verb;
   * a failed request still moves the throttle timestamp to the post-response reading.
   */
  lemma StatusOutcomes(
    c: ConnState, verb: Method, checkedAt: nat, response: HttpResponse, answeredAt: nat,
    resource: string, body: Value)
    requires DelayIfNecessary(checkedAt, c.lastRequest, c.requestDelay).Ok?
    ensures var x := if verb == Method.Get then Get(c, checkedAt, response, answeredAt, resource)
                     else Post(c, checkedAt, response, answeredAt, resource, body);
      && x.state.lastRequest == answeredAt
      && (response.status == 200 || response.status == 400 ==> x.result == Ok(response.body))
      && (response.status == 401 || response.status == 403 ==> x.result == Err(Authorization))
      && (response.status == 404 ==> x.result == Err(ResourceNotFound))
      && (response.status == 500 ==> x.result == Err(ExecutionFailure))
      && (response.status !in {200, 400, 401, 403, 404, 500} ==> x.result == Err(UnexpectedStatusCode))
  {
    var x := if verb == Method.Get then Get(c, checkedAt, response, answeredAt, resource)
             else Post(c, checkedAt, response, answeredAt, resource, body);
    assert x == Request(c, verb, resource, DefaultApiVersion, None,
                        if verb == Method.Get then None else Some(body), checkedAt, response, answeredAt);
  }

  /**
   * Because the throttle timestamp starts at `datetime.min`, the first request of a new
   * connection sleeps only if the delay exceeds the whole time since `datetime.min`.
   */
  lemma FirstRequestNeverSleeps(
    apiKey: string, requestDelay: int, checkedAt: nat, response: HttpResponse, answeredAt: nat, resource: string)
    requires checkedAt - DatetimeMin >= requestDelay
    ensures New(Some(apiKey), requestDelay).Ok?
    ensures Get(New(Some(apiKey), requestDelay).value, checkedAt, response, answeredAt, resource).delay == Ok(NoWait)
  {
  }
}
