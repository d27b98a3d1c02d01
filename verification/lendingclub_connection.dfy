/** The `LendingClub_Connection` class: the GET-only connection the library exports. */
module LendingClubConnection {
  import opened Wrappers
  import opened Errors
  import opened Http

  const UserAgent := "pylend v0.0.1"
  const MissingKeyMessage := "api_key must be provided and not None."

  /** The constructor: raises `ValueError` exactly when the key is missing. */
  function New(apiKey: Option<string>, requestDelay: int := DefaultRequestDelay): (r: Result<ConnState, Error>)
    ensures r.Err? <==> apiKey.None?
    ensures r.Err? ==> r.error == ValueError(MissingKeyMessage)
    ensures r.Ok? ==> && r.value.apiKey == apiKey.value
                      && r.value.userAgent == UserAgent
                      && r.value.lastRequest == DatetimeMin
                      && r.value.requestDelay == requestDelay
  {
    match apiKey
    case None => Err(ValueError(MissingKeyMessage))
    case Some(key) => Ok(ConnState(key, UserAgent, DatetimeMin, requestDelay))
  }

  /**
   * `get`: the URI is the base template filled with version and resource, the query
   * parameters are handed over untouched, the throttle timestamp moves to the reading
   * taken after the response, and the status code decides the outcome.
   */
  function Get(
    c: ConnState, checkedAt: nat, response: HttpResponse, answeredAt: nat,
    resource: string, apiVersion: string := DefaultApiVersion, params: QueryParams := None): (x: Exchange)
    ensures x.delay.Ok? ==>
      && x.state == c.(lastRequest := answeredAt)
      && x.sent.Some?
      && x.sent.value.verb == Method.Get
      && x.sent.value.uri == BaseUriPrefix + apiVersion + "/" + resource
      && x.sent.value.params == params
      && x.sent.value.body.None?
      && x.sent.value.headers == map["Accept" := "application/json",
                                     "Authorization" := c.apiKey,
                                     "User-Agent" := c.userAgent]
    ensures x.delay.Err? ==> x.state == c && x.sent.None? && x.result.Err?
  {
    Request(c, Method.Get, resource, apiVersion, params, None, checkedAt, response, answeredAt)
  }

  /** The outcomes the connection tests exercise, on a fresh connection with the default delay. */
  lemma StatusOutcomes(apiKey: string, checkedAt: nat, response: HttpResponse, answeredAt: nat, resource: string)
    requires checkedAt >= DefaultRequestDelay
    ensures New(Some(apiKey)).Ok?
    ensures var x := Get(New(Some(apiKey)).value, checkedAt, response, answeredAt, resource);
      && x.delay == Ok(NoWait)
      && x.state.lastRequest == answeredAt
      && (response.status == 200 || response.status == 400 ==> x.result == Ok(response.body))
      && (response.status == 401 || response.status == 403 ==> x.result == Err(Authorization))
      && (response.status == 404 ==> x.result == Err(ResourceNotFound))
      && (response.status == 500 ==> x.result == Err(ExecutionFailure))
      && (response.status !in {200, 400, 401, 403, 404, 500} ==> x.result == Err(UnexpectedStatusCode))
  {
    var c := New(Some(apiKey)).value;
    assert Get(c, checkedAt, response, answeredAt, resource)
        == Request(c, Method.Get, resource, DefaultApiVersion, None, None, checkedAt, response, answeredAt);
  }
}
