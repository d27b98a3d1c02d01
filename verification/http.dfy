/**
 * The decision logic shared by both connection classes: where a request goes, which
 * headers it carries, whether the throttle sleeps first, and how the status code of
 * the response is classified. Clock readings and the response are inputs; the sleep
 * is returned rather than performed.
 */
module Http {
  import opened Wrappers
  import opened Json
  import opened Errors
  import Format

  const JsonContentType := "application/json"
  /** The base URI `https://api.lendingclub.com/api/investor/`, in its three parts. */
  const BaseUriScheme := "https://"
  const BaseUriHost := "api.lendingclub.com"
  const BaseUriPath := "/api/investor/"
  const BaseUriPrefix := BaseUriScheme + BaseUriHost + BaseUriPath
  const BaseUriTemplate := BaseUriPrefix + "{0}/{1}"
  const DefaultApiVersion := "v1"

  /** Clock readings and time deltas are microseconds; a reading counts from `datetime.min`. */
  const DatetimeMin: nat := 0
  /** The default `request_delay` of one second. */
  const DefaultRequestDelay: int := 1000000
  /** What `time.sleep` raises when asked to sleep for a negative time. */
  const NegativeSleepMessage := "sleep length must be non-negative"

  /** A connection object: its credential, its user agent, the throttle timestamp and the delay. */
  datatype ConnState = ConnState(apiKey: string, userAgent: string, lastRequest: nat, requestDelay: int)

  datatype Method = Get | Post

  /** The `query_params` argument: absent (`None`) or a flat key to value mapping. */
  type QueryParams = Option<map<string, Value>>

  /** What the library hands to the HTTP transport. */
  datatype HttpRequest = HttpRequest(
    verb: Method,
    uri: string,
    headers: map<string, string>,
    params: QueryParams,
    body: Option<Value>)

  /** What the transport hands back: the status code and the decoded body. */
  datatype HttpResponse = HttpResponse(status: int, body: Value)

  /** The throttle's decision before sending. */
  datatype Wait = NoWait | Sleep(micros: nat)

  /** The base URI holds no brace, so the template's only braces are its two replacement fields. */
  lemma BasePrefixBraceFree()
    ensures '{' !in BaseUriPrefix && '}' !in BaseUriPrefix
  {
    assert '{' !in BaseUriScheme && '}' !in BaseUriScheme;
    assert '{' !in BaseUriHost && '}' !in BaseUriHost;
    assert '{' !in BaseUriPath && '}' !in BaseUriPath;
  }

  /** The base URI, spelled out. */
  lemma BaseUriSpelledOut()
    ensures BaseUriPrefix == "https://api.lendingclub.com/api/investor/"
  {
  }

  /** The request URI: the base template filled with the API version and the resource. */
  function RequestUri(apiVersion: string, resource: string): (uri: string)
    ensures uri == BaseUriPrefix + apiVersion + "/" + resource
  {
    assert BaseUriTemplate == BaseUriPrefix + "{0}" + "/" + "{1}";
    BasePrefixBraceFree();
    Format.FillTwo(BaseUriPrefix, "/", apiVersion, resource);
    Format.Format2(BaseUriTemplate, apiVersion, resource)
  }

  /**
   * The headers of a request: the JSON accept type, the raw key and the user agent, and
   * for POST only the JSON content type the POST request function adds.
   */
  function Headers(c: ConnState, m: Method): (h: map<string, string>)
    ensures m == Get ==> h.Keys == {"Accept", "Authorization", "User-Agent"}
    ensures m == Post ==> h.Keys == {"Accept", "Authorization", "User-Agent", "Content-type"}
    ensures "Accept" in h && h["Accept"] == JsonContentType
    ensures "Authorization" in h && h["Authorization"] == c.apiKey
    ensures "User-Agent" in h && h["User-Agent"] == c.userAgent
    ensures m == Post ==> h["Content-type"] == JsonContentType
  {
    var common := map["Accept" := JsonContentType, "Authorization" := c.apiKey, "User-Agent" := c.userAgent];
    if m == Post then common["Content-type" := "application/json"] else common
  }

  /**
   * `_delay_if_necessary`: sleeps only when less than `requestDelay` has elapsed since
   * `lastRequest`, and then for the elapsed time itself. A clock reading before
   * `lastRequest` makes the elapsed time negative, which `time.sleep` rejects.
   */
  function DelayIfNecessary(now: nat, lastRequest: nat, requestDelay: int): (r: Result<Wait, Error>)
    ensures r == Ok(NoWait) <==> now - lastRequest >= requestDelay
    ensures r.Ok? && r.value.Sleep? ==> r.value.micros == now - lastRequest && r.value.micros < requestDelay
    ensures r.Err? <==> now < lastRequest && now - lastRequest < requestDelay
    ensures r.Err? ==> r.error == ValueError(NegativeSleepMessage)
  {
    var delta := now - lastRequest;
    if delta < requestDelay then
      if delta < 0 then Err(ValueError(NegativeSleepMessage)) else Ok(Sleep(delta))
    else
      Ok(NoWait)
  }

  /**
   * `_check_for_errors`: 200 and 400 pass, 401 and 403 are authorization failures, 404
   * is a missing resource, 500 an execution failure, and every other code unexpected.
   */
  function CheckForErrors(status: int): (r: Option<Error>)
    ensures r.None? <==> status == 200 || status == 400
    ensures r == Some(Authorization) <==> status == 401 || status == 403
    ensures r == Some(ResourceNotFound) <==> status == 404
    ensures r == Some(ExecutionFailure) <==> status == 500
    ensures r == Some(UnexpectedStatusCode) <==> status !in {200, 400, 401, 403, 404, 500}
  {
    if status == 200 then None
    else if status == 400 then None
    else if status == 401 || status == 403 then Some(Authorization)
    else if status == 404 then Some(ResourceNotFound)
    else if status == 500 then Some(ExecutionFailure)
    else Some(UnexpectedStatusCode)
  }

  /** One request: the throttle decision, the request sent (if any), the new state and the outcome. */
  datatype Exchange = Exchange(
    state: ConnState,
    delay: Result<Wait, Error>,
    sent: Option<HttpRequest>,
    result: Result<Value, Error>)

  /**
   * `_request`: build the URI and headers, consult the throttle (reading the clock at
   * `checkedAt`), send, record the clock reading `answeredAt` taken after the response
   * arrived as the new `lastRequest`, and only then classify the status code.
   */
  function Request(
    c: ConnState, m: Method, resource: string, apiVersion: string, params: QueryParams,
    data: Option<Value>, checkedAt: nat, response: HttpResponse, answeredAt: nat): (x: Exchange)
    ensures x.delay == DelayIfNecessary(checkedAt, c.lastRequest, c.requestDelay)
    ensures x.delay.Err? ==> x.state == c && x.sent.None? && x.result == Err(x.delay.error)
    ensures x.delay.Ok? ==> x.state == c.(lastRequest := answeredAt)
    ensures x.delay.Ok? ==>
      && x.sent.Some?
      && x.sent.value.verb == m
      && x.sent.value.uri == BaseUriPrefix + apiVersion + "/" + resource
      && x.sent.value.params == params
      && x.sent.value.body == data
      && x.sent.value.headers.Keys >= {"Accept", "Authorization", "User-Agent"}
      && x.sent.value.headers["Accept"] == JsonContentType
      && x.sent.value.headers["Authorization"] == c.apiKey
      && x.sent.value.headers["User-Agent"] == c.userAgent
    ensures x.delay.Ok? ==> (x.result == Ok(response.body) <==> response.status in {200, 400})
    ensures x.delay.Ok? && x.result.Err? ==> Some(x.result.error) == CheckForErrors(response.status)
  {
    var uri := RequestUri(apiVersion, resource);
    var headers := Headers(c, m);
    match DelayIfNecessary(checkedAt, c.lastRequest, c.requestDelay)
    case Err(e) => Exchange(c, Err(e), None, Err(e))
    case Ok(w) =>
      var sent := HttpRequest(m, uri, headers, params, data);
      var c' := c.(lastRequest := answeredAt);
      var result := match CheckForErrors(response.status)
        case None => Ok(response.body)
        case Some(e) => Err(e);
      Exchange(c', Ok(w), Some(sent), result)
  }

  /**
   * The throttle as written: when it sleeps, the request departs twice the elapsed time
   * after the previous response, so consecutive departures can be closer than the delay.
   */
  lemma SleepDoublesElapsed(now: nat, lastRequest: nat, requestDelay: int)
    requires 0 <= now - lastRequest < requestDelay
    ensures DelayIfNecessary(now, lastRequest, requestDelay).Ok?
    ensures var w := DelayIfNecessary(now, lastRequest, requestDelay).value;
            w.Sleep? && now + w.micros - lastRequest == 2 * (now - lastRequest)
  {
  }

  /**
   * A concrete case under a 1 s delay: a request 0.1 s after the previous response sleeps
   * 0.1 s, so it departs 0.2 s after that response, well inside the delay.
   */
  lemma GapShorterThanDelay()
    ensures var w := DelayIfNecessary(5100000, 5000000, DefaultRequestDelay);
            w == Ok(Sleep(100000)) && 5100000 + w.value.micros - 5000000 < DefaultRequestDelay
  {
  }

  /** One call on a connection, with the clock readings and the response it meets. */
  datatype Step = Step(
    verb: Method, resource: string, apiVersion: string, params: QueryParams, data: Option<Value>,
    checkedAt: nat, response: HttpResponse, answeredAt: nat)

  /** The connection state after a sequence of calls, each made on the state the previous one left. */
  function Run(c: ConnState, steps: seq<Step>): (c': ConnState)
    decreases |steps|
  {
    if |steps| == 0 then c
    else
      var s := steps[0];
      var x := Request(c, s.verb, s.resource, s.apiVersion, s.params, s.data, s.checkedAt, s.response, s.answeredAt);
      Run(x.state, steps[1..])
  }

  /** The clock never runs backwards: from `t` on, each call reads it no earlier than the reading before. */
  ghost predicate ClockFrom(t: nat, steps: seq<Step>)
    decreases |steps|
  {
    |steps| == 0 ||
    (t <= steps[0].checkedAt <= steps[0].answeredAt && ClockFrom(steps[0].answeredAt, steps[1..]))
  }

  /** Over any sequence of calls the credential, user agent and delay never change. */
  lemma {:induction false} RunKeepsSettings(c: ConnState, steps: seq<Step>)
    ensures Run(c, steps).apiKey == c.apiKey
    ensures Run(c, steps).userAgent == c.userAgent
    ensures Run(c, steps).requestDelay == c.requestDelay
    decreases |steps|
  {
    if |steps| > 0 {
      var s := steps[0];
      var x := Request(c, s.verb, s.resource, s.apiVersion, s.params, s.data, s.checkedAt, s.response, s.answeredAt);
      RunKeepsSettings(x.state, steps[1..]);
    }
  }

  /** The throttle timestamp is always the initial one or the post-response reading of some call. */
  lemma {:induction false} RunTimestampFromSomeCall(c: ConnState, steps: seq<Step>)
    ensures Run(c, steps).lastRequest == c.lastRequest ||
      exists i :: 0 <= i < |steps| && Run(c, steps).lastRequest == steps[i].answeredAt
    decreases |steps|
  {
    if |steps| > 0 {
      var s := steps[0];
      var x := Request(c, s.verb, s.resource, s.apiVersion, s.params, s.data, s.checkedAt, s.response, s.answeredAt);
      RunTimestampFromSomeCall(x.state, steps[1..]);
      var c' := Run(x.state, steps[1..]);
      if c'.lastRequest != x.state.lastRequest {
        var i :| 0 <= i < |steps[1..]| && c'.lastRequest == steps[1..][i].answeredAt;
        assert steps[i + 1] == steps[1..][i];
      } else if x.state.lastRequest != c.lastRequest {
        assert c'.lastRequest == steps[0].answeredAt;
      }
    }
  }

  /**
   * With a clock that never runs backwards no call of a sequence fails in the throttle:
   * each call meets the timestamp the calls before it left, and its reading is no earlier.
   */
  lemma {:induction false} RunThrottleNeverRaises(c: ConnState, steps: seq<Step>)
    requires ClockFrom(c.lastRequest, steps)
    ensures forall i :: 0 <= i < |steps| ==>
      DelayIfNecessary(steps[i].checkedAt, Run(c, steps[..i]).lastRequest, c.requestDelay).Ok?
    decreases |steps|
  {
    if |steps| > 0 {
      var s := steps[0];
      var x := Request(c, s.verb, s.resource, s.apiVersion, s.params, s.data, s.checkedAt, s.response, s.answeredAt);
      assert x.state == c.(lastRequest := s.answeredAt);
      RunThrottleNeverRaises(x.state, steps[1..]);
      forall i | 0 <= i < |steps|
        ensures DelayIfNecessary(steps[i].checkedAt, Run(c, steps[..i]).lastRequest, c.requestDelay).Ok?
      {
        if i == 0 {
          assert steps[..0] == [];
        } else {
          assert steps[..i][0] == s;
          assert steps[..i][1..] == steps[1..][..i - 1];
          assert Run(c, steps[..i]) == Run(x.state, steps[1..][..i - 1]);
          assert steps[i] == steps[1..][i - 1];
        }
      }
    }
  }

  /**
   * With a clock that never runs backwards no call fails in the throttle, so after a
   * non-empty sequence of calls the timestamp is the post-response reading of the last
   * call, whatever the status codes were.
   */
  lemma {:induction false} RunTracksLastResponse(c: ConnState, steps: seq<Step>)
    requires |steps| > 0 && ClockFrom(c.lastRequest, steps)
    ensures Run(c, steps).lastRequest == steps[|steps| - 1].answeredAt
    decreases |steps|
  {
    var s := steps[0];
    var x := Request(c, s.verb, s.resource, s.apiVersion, s.params, s.data, s.checkedAt, s.response, s.answeredAt);
    assert x.state.lastRequest == s.answeredAt;
    if |steps| > 1 {
      RunTracksLastResponse(x.state, steps[1..]);
      assert steps[|steps| - 1] == steps[1..][|steps[1..]| - 1];
    }
  }
}
